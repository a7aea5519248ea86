/**
  The JDBC library constants the HSQLDB generator uses: the `java.sql.Types`
  type codes, the `DatabaseMetaData` nullability codes, and the fixed-width
  Java integers they and the type descriptors are stored in.
 */
module JdbcTypes {
  import opened Wrappers

  /** Java `int`. */
  newtype int32 = x: int | -0x8000_0000 <= x < 0x8000_0000

  /** The largest Java `int` and `long`. */
  const MAX_INT32: int := 0x7FFF_FFFF
  const MAX_INT64: int := 0x7FFF_FFFF_FFFF_FFFF

  // The type codes of java.sql.Types (JDBC 3.0).
  const BIT: int32 := -7
  const TINYINT: int32 := -6
  const SMALLINT: int32 := 5
  const INTEGER: int32 := 4
  const BIGINT: int32 := -5
  const FLOAT: int32 := 6
  const REAL: int32 := 7
  const DOUBLE: int32 := 8
  const NUMERIC: int32 := 2
  const DECIMAL: int32 := 3
  const CHAR: int32 := 1
  const VARCHAR: int32 := 12
  const LONGVARCHAR: int32 := -1
  const DATE: int32 := 91
  const TIME: int32 := 92
  const TIMESTAMP: int32 := 93
  const BINARY: int32 := -2
  const VARBINARY: int32 := -3
  const LONGVARBINARY: int32 := -4
  const NULL: int32 := 0
  const OTHER: int32 := 1111
  const JAVA_OBJECT: int32 := 2000
  const DISTINCT: int32 := 2001
  const STRUCT: int32 := 2002
  const ARRAY: int32 := 2003
  const BLOB: int32 := 2004
  const CLOB: int32 := 2005
  const REF: int32 := 2006
  const DATALINK: int32 := 70
  const BOOLEAN: int32 := 16

  // The nullability codes of java.sql.DatabaseMetaData.
  const COLUMN_NO_NULLS: int32 := 0
  const COLUMN_NULLABLE: int32 := 1
  const COLUMN_NULLABLE_UNKNOWN: int32 := 2

  /**
    The name of the java.sql.Types constant whose value is `code`, or None when
    `code` is not one of them. This is the reference the type map's physical
    names are compared against.
   */
  function TypeName(code: int32): Option<string>
  {
    if code == BIT then Some("BIT")
    else if code == TINYINT then Some("TINYINT")
    else if code == SMALLINT then Some("SMALLINT")
    else if code == INTEGER then Some("INTEGER")
    else if code == BIGINT then Some("BIGINT")
    else if code == FLOAT then Some("FLOAT")
    else if code == REAL then Some("REAL")
    else if code == DOUBLE then Some("DOUBLE")
    else if code == NUMERIC then Some("NUMERIC")
    else if code == DECIMAL then Some("DECIMAL")
    else if code == CHAR then Some("CHAR")
    else if code == VARCHAR then Some("VARCHAR")
    else if code == LONGVARCHAR then Some("LONGVARCHAR")
    else if code == DATE then Some("DATE")
    else if code == TIME then Some("TIME")
    else if code == TIMESTAMP then Some("TIMESTAMP")
    else if code == BINARY then Some("BINARY")
    else if code == VARBINARY then Some("VARBINARY")
    else if code == LONGVARBINARY then Some("LONGVARBINARY")
    else if code == NULL then Some("NULL")
    else if code == OTHER then Some("OTHER")
    else if code == JAVA_OBJECT then Some("JAVA_OBJECT")
    else if code == DISTINCT then Some("DISTINCT")
    else if code == STRUCT then Some("STRUCT")
    else if code == ARRAY then Some("ARRAY")
    else if code == BLOB then Some("BLOB")
    else if code == CLOB then Some("CLOB")
    else if code == REF then Some("REF")
    else if code == DATALINK then Some("DATALINK")
    else if code == BOOLEAN then Some("BOOLEAN")
    else None
  }

  /** Every type code of java.sql.Types: the closed enumeration of abstract SQL types. */
  const ALL_TYPE_CODES: set<int32> :=
    {BIT, TINYINT, SMALLINT, INTEGER, BIGINT, FLOAT, REAL, DOUBLE, NUMERIC, DECIMAL,
     CHAR, VARCHAR, LONGVARCHAR, DATE, TIME, TIMESTAMP, BINARY, VARBINARY, LONGVARBINARY,
     NULL, OTHER, JAVA_OBJECT, DISTINCT, STRUCT, ARRAY, BLOB, CLOB, REF, DATALINK, BOOLEAN}
}
