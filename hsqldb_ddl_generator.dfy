/**
  The HSQLDB dialect of the DDL generator: the type map it installs, the
  auto-increment column type, the deferrability clause with its warning, and
  the dialect's vocabulary.
 */
module HsqldbDdl {
  import opened Wrappers
  import opened JdbcTypes
  import opened DdlModel

  /** The length HSQLDB's table uses for "practically unlimited" binary and character types. */
  const UNBOUNDED_LENGTH: nat := 4000000000

  const DEFERRED_CHECKING_MESSAGE := "HSQLDB does not support deferred constraint checking"

  /** The clause written in place of a deferrability request HSQLDB cannot honour. */
  const NOT_SUPPORTED_CLAUSE := "NOT SUPPORTED"

  // ---------------------------------------------------------------------------
  // The type map, characterised property by property.
  // ---------------------------------------------------------------------------

  /**
    The type map HSQLDB's generator installs: a fresh map with one entry per
    put, in the order of the puts (as with put, a later entry for a key already
    present would replace the earlier one).
   */
  function HsqldbTypeMap(): (m: map<int32, TypeDescriptor>)
    ensures forall code {:trigger m[code]} :: code in m ==> m[code].dataType == code
  {
    map[
      BIGINT := TypeDescriptor("BIGINT", BIGINT, 1000, None, None, COLUMN_NULLABLE, true, false),
      BINARY := TypeDescriptor("BINARY", BINARY, 4000000000, None, None, COLUMN_NULLABLE, false, false),
      BIT := TypeDescriptor("BIT", BIT, 1, None, None, COLUMN_NULLABLE, true, false),
      BLOB := TypeDescriptor("LONGVARBINARY", BLOB, 4000000000, None, None, COLUMN_NULLABLE, false, false),
      BOOLEAN := TypeDescriptor("BOOLEAN", BOOLEAN, 1, None, None, COLUMN_NULLABLE, false, false),
      CHAR := TypeDescriptor("CHAR", CHAR, 4000000000, Some("'"), Some("'"), COLUMN_NULLABLE, true, false),
      CLOB := TypeDescriptor("LONGVARCHAR", CLOB, 4000000000, None, None, COLUMN_NULLABLE, false, false),
      DATE := TypeDescriptor("DATE", DATE, 0, Some("'"), Some("'"), COLUMN_NULLABLE, false, false),
      DECIMAL := TypeDescriptor("DECIMAL", DECIMAL, 1000, None, None, COLUMN_NULLABLE, true, true),
      DOUBLE := TypeDescriptor("DOUBLE", DOUBLE, 38, None, None, COLUMN_NULLABLE, false, false),
      FLOAT := TypeDescriptor("FLOAT", FLOAT, 38, None, None, COLUMN_NULLABLE, false, false),
      INTEGER := TypeDescriptor("INTEGER", INTEGER, 38, None, None, COLUMN_NULLABLE, false, false),
      LONGVARBINARY := TypeDescriptor("LONGVARBINARY", LONGVARBINARY, 4000000000, None, None, COLUMN_NULLABLE, false, false),
      LONGVARCHAR := TypeDescriptor("LONGVARCHAR", LONGVARCHAR, 4000000000, Some("'"), Some("'"), COLUMN_NULLABLE, false, false),
      NUMERIC := TypeDescriptor("NUMERIC", NUMERIC, 1000, None, None, COLUMN_NULLABLE, true, true),
      REAL := TypeDescriptor("REAL", REAL, 38, None, None, COLUMN_NULLABLE, false, false),
      SMALLINT := TypeDescriptor("SMALLINT", SMALLINT, 16, None, None, COLUMN_NULLABLE, false, false),
      TIME := TypeDescriptor("TIME", TIME, 0, Some("'"), Some("'"), COLUMN_NULLABLE, false, false),
      TIMESTAMP := TypeDescriptor("TIMESTAMP", TIMESTAMP, 0, Some("'"), Some("'"), COLUMN_NULLABLE, false, false),
      TINYINT := TypeDescriptor("TINYINT", TINYINT, 16, None, None, COLUMN_NULLABLE, false, false),
      VARBINARY := TypeDescriptor("VARBINARY", VARBINARY, 4000000000, None, None, COLUMN_NULLABLE, false, false),
      VARCHAR := TypeDescriptor("VARCHAR", VARCHAR, 4000000000, Some("'"), Some("'"), COLUMN_NULLABLE, true, false)
    ]
  }

  // The HSQLDB type codes by family.
  const INTEGER_CODES: set<int32> := {TINYINT, SMALLINT, INTEGER, BIGINT}
  const DECIMAL_CODES: set<int32> := {DECIMAL, NUMERIC}
  const BIT_CODES: set<int32> := {BIT, BOOLEAN}
  const APPROXIMATE_CODES: set<int32> := {REAL, FLOAT, DOUBLE}
  const CHARACTER_CODES: set<int32> := {CHAR, VARCHAR, LONGVARCHAR, CLOB}
  const BINARY_CODES: set<int32> := {BINARY, VARBINARY, LONGVARBINARY, BLOB}
  /** Date and time types, for which a length does not apply. */
  const TEMPORAL_CODES: set<int32> := {DATE, TIME, TIMESTAMP}

  /** The type codes the HSQLDB type map has an entry for. */
  const HSQLDB_TYPE_CODES: set<int32> :=
    {BIGINT, BINARY, BIT, BLOB, BOOLEAN, CHAR, CLOB, DATE, DECIMAL, DOUBLE, FLOAT,
     INTEGER, LONGVARBINARY, LONGVARCHAR, NUMERIC, REAL, SMALLINT, TIME, TIMESTAMP,
     TINYINT, VARBINARY, VARCHAR}

  /** Types whose columns declare a precision. */
  const PRECISION_CODES: set<int32> := {BIGINT, BIT, CHAR, DECIMAL, NUMERIC, VARCHAR}

  /** Types whose columns declare a scale. */
  const SCALE_CODES: set<int32> := {DECIMAL, NUMERIC}

  /** Types whose literals are quoted with a single quote. */
  const QUOTED_CODES: set<int32> := {CHAR, DATE, LONGVARCHAR, TIME, TIMESTAMP, VARCHAR}

  /** Binary and character types of practically unlimited length. */
  const UNBOUNDED_CODES: set<int32> :=
    {BINARY, BLOB, CHAR, CLOB, LONGVARBINARY, LONGVARCHAR, VARBINARY, VARCHAR}

  /**
    The HSQLDB type name for `code`: the large-object types are written as the
    corresponding LONGVAR types, every other type under its own JDBC name.
   */
  function PhysicalName(code: int32): (name: string)
    requires code in HSQLDB_TYPE_CODES
  {
    if code == BLOB then "LONGVARBINARY"
    else if code == CLOB then "LONGVARCHAR"
    else match TypeName(code)
      case Some(name) => name
      case None => ""
  }

  /** The maximum length HSQLDB's table gives `code`: the table's length column, grouped by value. */
  function MaxLength(code: int32): (len: nat)
    requires code in HSQLDB_TYPE_CODES
  {
    if code in UNBOUNDED_CODES then UNBOUNDED_LENGTH
    else if code in TEMPORAL_CODES then 0
    else if code in {BIGINT, DECIMAL, NUMERIC} then 1000
    else if code in {DOUBLE, FLOAT, INTEGER, REAL} then 38
    else if code in {SMALLINT, TINYINT} then 16
    else 1
  }

  /** The literal quote of `code`: a single quote for the quoted types, none otherwise. */
  function LiteralQuote(code: int32): (quote: Option<string>)
  {
    if code in QUOTED_CODES then Some("'") else None
  }

  /** `d` is the descriptor HSQLDB uses for `code`. */
  predicate DescribesHsqldbType(code: int32, d: TypeDescriptor)
    requires code in HSQLDB_TYPE_CODES
  {
    && d.dataType == code
    && d.name == PhysicalName(code)
    && d.maxLength == MaxLength(code)
    && d.literalPrefix == LiteralQuote(code)
    && d.literalSuffix == LiteralQuote(code)
    && d.nullable == COLUMN_NULLABLE
    && (d.precisionSupported <==> code in PRECISION_CODES)
    && (d.scaleSupported <==> code in SCALE_CODES)
  }

  /** `m` is HSQLDB's type map: exactly the HSQLDB codes, each with its descriptor. */
  predicate IsHsqldbTypeMap(m: map<int32, TypeDescriptor>)
  {
    && m.Keys == HSQLDB_TYPE_CODES
    && forall code {:trigger m[code]} :: code in m ==> DescribesHsqldbType(code, m[code])
  }

  /** The entries for the integer types are the ones the characterisation gives. */
  lemma IntegerEntries(code: int32)
    requires code in INTEGER_CODES
    ensures code in HsqldbTypeMap() && DescribesHsqldbType(code, HsqldbTypeMap()[code])
  {
  }

  /** The entries for the decimal types are the ones the characterisation gives. */
  lemma DecimalEntries(code: int32)
    requires code in DECIMAL_CODES
    ensures code in HsqldbTypeMap() && DescribesHsqldbType(code, HsqldbTypeMap()[code])
  {
  }

  /** The entries for the bit and boolean types are the ones the characterisation gives. */
  lemma BitEntries(code: int32)
    requires code in BIT_CODES
    ensures code in HsqldbTypeMap() && DescribesHsqldbType(code, HsqldbTypeMap()[code])
  {
  }

  /** The entries for the approximate numeric types are the ones the characterisation gives. */
  lemma ApproximateEntries(code: int32)
    requires code in APPROXIMATE_CODES
    ensures code in HsqldbTypeMap() && DescribesHsqldbType(code, HsqldbTypeMap()[code])
  {
  }

  /** The entries for the character types are the ones the characterisation gives. */
  lemma CharacterEntries(code: int32)
    requires code in CHARACTER_CODES
    ensures code in HsqldbTypeMap() && DescribesHsqldbType(code, HsqldbTypeMap()[code])
  {
  }

  /** The entries for the binary types are the ones the characterisation gives. */
  lemma BinaryEntries(code: int32)
    requires code in BINARY_CODES
    ensures code in HsqldbTypeMap() && DescribesHsqldbType(code, HsqldbTypeMap()[code])
  {
  }

  /** The entries for the date and time types are the ones the characterisation gives. */
  lemma TemporalEntries(code: int32)
    requires code in TEMPORAL_CODES
    ensures code in HsqldbTypeMap() && DescribesHsqldbType(code, HsqldbTypeMap()[code])
  {
  }

  /** Every HSQLDB type code belongs to one of the families. */
  lemma HsqldbCodeFamilies(code: int32)
    requires code in HSQLDB_TYPE_CODES
    ensures || code in INTEGER_CODES || code in DECIMAL_CODES || code in BIT_CODES
            || code in APPROXIMATE_CODES || code in CHARACTER_CODES || code in BINARY_CODES
            || code in TEMPORAL_CODES
  {
  }

  /** HsqldbTypeMap satisfies the characterisation: exactly the HSQLDB codes, each described. */
  lemma {:induction false} HsqldbTypeMapCharacterised()
    ensures IsHsqldbTypeMap(HsqldbTypeMap())
  {
    var m := HsqldbTypeMap();
    assert m.Keys == HSQLDB_TYPE_CODES;
    forall code | code in m
      ensures DescribesHsqldbType(code, m[code])
    {
      HsqldbCodeFamilies(code);
      if code in INTEGER_CODES {
        IntegerEntries(code);
      } else if code in DECIMAL_CODES {
        DecimalEntries(code);
      } else if code in BIT_CODES {
        BitEntries(code);
      } else if code in APPROXIMATE_CODES {
        ApproximateEntries(code);
      } else if code in CHARACTER_CODES {
        CharacterEntries(code);
      } else if code in BINARY_CODES {
        BinaryEntries(code);
      } else {
        TemporalEntries(code);
      }
    }
  }

  /** The characterisation leaves no freedom: two maps that both satisfy it are equal. */
  lemma {:induction false} HsqldbTypeMapIsUnique(m1: map<int32, TypeDescriptor>, m2: map<int32, TypeDescriptor>)
    requires IsHsqldbTypeMap(m1) && IsHsqldbTypeMap(m2)
    ensures m1 == m2
  {
    forall code | code in m1
      ensures m1[code] == m2[code]
    {
      var d1, d2 := m1[code], m2[code];
      assert DescribesHsqldbType(code, d1) && DescribesHsqldbType(code, d2);
    }
  }

  /**
    Of the java.sql.Types codes, exactly NULL, OTHER, JAVA_OBJECT, DISTINCT,
    STRUCT, ARRAY, REF and DATALINK are not HSQLDB type codes.
   */
  lemma UnmappedCodes(code: int32)
    requires code in ALL_TYPE_CODES
    ensures code !in HSQLDB_TYPE_CODES <==> code in {NULL, OTHER, JAVA_OBJECT, DISTINCT, STRUCT, ARRAY, REF, DATALINK}
  {
  }

  /** Those eight codes are the ones HSQLDB's type map cannot resolve. */
  lemma UnmappedTypeCodes(m: map<int32, TypeDescriptor>, code: int32)
    requires IsHsqldbTypeMap(m) && code in ALL_TYPE_CODES
    ensures code !in m <==> code in {NULL, OTHER, JAVA_OBJECT, DISTINCT, STRUCT, ARRAY, REF, DATALINK}
  {
    UnmappedCodes(code);
  }

  /**
    Physical names are distinct except for the two large-object aliases: BLOB
    is written as LONGVARBINARY and CLOB as LONGVARCHAR.
   */
  lemma PhysicalNamesDistinct(c1: int32, c2: int32)
    requires c1 in HSQLDB_TYPE_CODES && c2 in HSQLDB_TYPE_CODES && c1 != c2
    ensures PhysicalName(c1) == PhysicalName(c2) <==>
              ({c1, c2} == {BLOB, LONGVARBINARY} || {c1, c2} == {CLOB, LONGVARCHAR})
  {
  }

  /**
    In HSQLDB's map two entries share a physical name only for the aliases
    BLOB/LONGVARBINARY and CLOB/LONGVARCHAR; yet CLOB literals are not quoted
    while LONGVARCHAR literals are.
   */
  lemma LargeObjectAliases(m: map<int32, TypeDescriptor>, c1: int32, c2: int32)
    requires IsHsqldbTypeMap(m) && c1 in m && c2 in m && c1 != c2
    ensures m[c1].name == m[c2].name <==>
              ({c1, c2} == {BLOB, LONGVARBINARY} || {c1, c2} == {CLOB, LONGVARCHAR})
    ensures m[BLOB].name == "LONGVARBINARY" && m[CLOB].name == "LONGVARCHAR"
    ensures m[CLOB].literalPrefix.None? && m[LONGVARCHAR].literalPrefix == Some("'")
  {
    PhysicalNamesDistinct(c1, c2);
    assert BLOB in m && CLOB in m && LONGVARCHAR in m;
  }

  /**
    The sentinel length of the unbounded types does not fit in a Java int;
    every other length does, every length fits in a Java long, and only the
    date and time types have length 0.
   */
  lemma UnboundedLengthExceedsInt32(m: map<int32, TypeDescriptor>, code: int32)
    requires IsHsqldbTypeMap(m) && code in m
    ensures m[code].maxLength > MAX_INT32 <==> code in UNBOUNDED_CODES
    ensures m[code].maxLength <= MAX_INT64
    ensures code in TEMPORAL_CODES <==> m[code].maxLength == 0
  {
    assert DescribesHsqldbType(code, m[code]);
  }

  // ---------------------------------------------------------------------------
  // The deferrability clause, as a value.
  // ---------------------------------------------------------------------------

  /** What getDeferrabilityClause produces: the clause and the warning it records, if any. */
  datatype ClauseOutcome = ClauseOutcome(clause: string, warning: Option<DdlWarning>)

  /**
    HSQLDB has no deferred constraint checking: a relationship that asks for it
    gets the NOT SUPPORTED clause and a warning naming it; a not-deferrable one
    gets an empty clause and no warning.
   */
  function DeferrabilityClause(r: Relationship): (out: ClauseOutcome)
    ensures out.warning.None? <==> r.deferrability == NotDeferrable
    ensures out.clause == "" <==> out.warning.None?
    ensures out.warning.Some? ==>
              out.clause == NOT_SUPPORTED_CLAUSE
              && out.warning.value == UnsupportedFeatureDdlWarning(DEFERRED_CHECKING_MESSAGE, r)
  {
    if r.deferrability != NotDeferrable then
      ClauseOutcome(NOT_SUPPORTED_CLAUSE, Some(UnsupportedFeatureDdlWarning(DEFERRED_CHECKING_MESSAGE, r)))
    else
      ClauseOutcome("", None)
  }

  /** The warnings list after recording the outcome's warning, if any. */
  function Record(warnings: seq<DdlWarning>, out: ClauseOutcome): (ws: seq<DdlWarning>)
    ensures out.warning.None? ==> ws == warnings
    ensures out.warning.Some? ==> |ws| == |warnings| + 1 && ws[..|warnings|] == warnings && ws[|warnings|] == out.warning.value
  {
    match out.warning
    case None => warnings
    case Some(w) => warnings + [w]
  }

  // ---------------------------------------------------------------------------
  // The warnings of a generation run.
  // ---------------------------------------------------------------------------

  /**
    The warnings list after the clause has been requested for each relationship
    of `rs` in turn, starting from `warnings`, as the generic generator does
    for the foreign keys it writes.
   */
  function WarningsAfter(warnings: seq<DdlWarning>, rs: seq<Relationship>): (ws: seq<DdlWarning>)
    ensures |warnings| <= |ws| <= |warnings| + |rs|
    ensures ws[..|warnings|] == warnings
    decreases |rs|
  {
    if rs == [] then warnings
    else WarningsAfter(Record(warnings, DeferrabilityClause(rs[0])), rs[1..])
  }

  /** The relationships of `rs` that ask for deferred checking, in their order. */
  function DeferredRelationships(rs: seq<Relationship>): (ds: seq<Relationship>)
    ensures |ds| <= |rs|
    ensures forall r :: r in ds <==> r in rs && r.deferrability != NotDeferrable
  {
    if rs == [] then []
    else if rs[0].deferrability != NotDeferrable then [rs[0]] + DeferredRelationships(rs[1..])
    else DeferredRelationships(rs[1..])
  }

  /** One deferred-checking warning per relationship of `ds`, in the same order. */
  function DeferralWarnings(ds: seq<Relationship>): (ws: seq<DdlWarning>)
  {
    seq(|ds|, i requires 0 <= i < |ds| => UnsupportedFeatureDdlWarning(DEFERRED_CHECKING_MESSAGE, ds[i]))
  }

  /**
    A run keeps the earlier warnings and adds exactly one warning for each
    relationship that asks for deferred checking, in the order the
    relationships were visited; not-deferrable relationships add nothing.
   */
  lemma {:induction false} RunWarnsOncePerDeferred(warnings: seq<DdlWarning>, rs: seq<Relationship>)
    ensures WarningsAfter(warnings, rs) == warnings + DeferralWarnings(DeferredRelationships(rs))
    decreases |rs|
  {
    if rs != [] {
      var w := Record(warnings, DeferrabilityClause(rs[0]));
      RunWarnsOncePerDeferred(w, rs[1..]);
      var rest := DeferredRelationships(rs[1..]);
      if rs[0].deferrability != NotDeferrable {
        assert DeferralWarnings([rs[0]] + rest)
            == [UnsupportedFeatureDdlWarning(DEFERRED_CHECKING_MESSAGE, rs[0])] + DeferralWarnings(rest);
      }
    }
  }

  // ---------------------------------------------------------------------------
  // The generator object.
  // ---------------------------------------------------------------------------

  /**
    HSQLDBDDLGenerator. `typeMap` is the type map it installs; `warnings` is the
    warnings list inherited from the generic generator, which this dialect
    appends to.
   */
  class HsqldbDdlGenerator {
    var typeMap: map<int32, TypeDescriptor>
    var warnings: seq<DdlWarning>

    /** A fresh generator: no warnings yet, and HSQLDB's type map installed. */
    constructor ()
      ensures IsHsqldbTypeMap(typeMap) && warnings == []
    {
      typeMap := map[];
      warnings := [];
      new;
      CreateTypeMap();
    }

    function Name(): (name: string)
      ensures name == "HSQLDB"
    {
      "HSQLDB"
    }

    /** HSQLDB has no catalogs. */
    function CatalogTerm(): (term: Option<string>)
      ensures term.None?
    {
      None
    }

    function SchemaTerm(): (term: Option<string>)
      ensures term == Some("Schema")
    {
      Some("Schema")
    }

    /**
      The type written for column `c`: IDENTITY for an auto-increment column,
      whatever its SQL type; otherwise whatever the generic generator writes,
      given here as `genericColumnType`.
     */
    function ColumnType(c: Column, genericColumnType: Column -> string): (t: string)
      ensures c.autoIncrement ==> t == "IDENTITY"
      ensures !c.autoIncrement ==> t == genericColumnType(c)
    {
      if c.autoIncrement then "IDENTITY" else genericColumnType(c)
    }

    /**
      An auto-increment column's type depends neither on its SQL type nor on
      the generic generator.
     */
    lemma IdentityIgnoresSqlType(c1: Column, c2: Column, g1: Column -> string, g2: Column -> string)
      requires c1.autoIncrement && c2.autoIncrement
      ensures ColumnType(c1, g1) == ColumnType(c2, g2) == "IDENTITY"
    {
    }

    /**
      Returns the clause for `r` and records the warning that goes with it at
      the end of `warnings`; the type map is left alone.
     */
    method GetDeferrabilityClause(r: Relationship) returns (clause: string)
      modifies this
      ensures clause == DeferrabilityClause(r).clause
      ensures warnings == Record(old(warnings), DeferrabilityClause(r))
      ensures typeMap == old(typeMap)
    {
      if r.deferrability != NotDeferrable {
        warnings := warnings + [UnsupportedFeatureDdlWarning(DEFERRED_CHECKING_MESSAGE, r)];
        return NOT_SUPPORTED_CLAUSE;
      } else {
        return "";
      }
    }

    /**
      Replaces the type map by a fresh one holding HSQLDB's 22 descriptors;
      nothing of the previous map survives, and the warnings are left alone.
     */
    method CreateTypeMap()
      modifies this
      ensures typeMap == HsqldbTypeMap()
      ensures IsHsqldbTypeMap(typeMap)
      ensures warnings == old(warnings)
    {
      typeMap := HsqldbTypeMap();
      HsqldbTypeMapCharacterised();
    }
  }

  /**
    A client: a fresh generator, an auto-increment key column, a foreign key
    that asks for deferred checking and one that does not.
   */
  method DeferredForeignKeyScenario(generic: Column -> string)
  {
    var g := new HsqldbDdlGenerator();
    var id := Column(1, "ID", INTEGER, true);
    assert g.ColumnType(id, generic) == "IDENTITY";
    var fk := Relationship(1, InitiallyDeferred);
    var clause := g.GetDeferrabilityClause(fk);
    assert clause == "NOT SUPPORTED";
    assert g.warnings == [UnsupportedFeatureDdlWarning(DEFERRED_CHECKING_MESSAGE, fk)];
    var plain := Relationship(2, NotDeferrable);
    clause := g.GetDeferrabilityClause(plain);
    assert clause == "" && |g.warnings| == 1;
    assert g.typeMap[VARCHAR].precisionSupported && !g.typeMap[VARCHAR].scaleSupported;
  }
}
