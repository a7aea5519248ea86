# HSQLDB dialect of the Power*Architect DDL generator

Power*Architect turns a relational schema model into `CREATE`/`ALTER` DDL
for a chosen database product. A generic generator walks the schema. Each
dialect supplies a type map and overrides a few hooks. This project models
the HSQLDB dialect, `HSQLDBDDLGenerator`:

- **Type map.** `createTypeMap` installs a fresh map from JDBC type codes to
  type descriptors.
- **Column type.** `columnType` writes `IDENTITY` for an auto-increment
  column and otherwise defers to the generic generator.
- **Deferrability clause.** `getDeferrabilityClause` degrades any
  deferrability request to `NOT SUPPORTED` and records a warning against
  the relationship.
- **Vocabulary.** `getName`, `getCatalogTerm` and `getSchemaTerm` return
  the dialect's name and terms. There is no catalog term.

Files:

- `wrappers.dfy`: `Option`, which stands for Java's `null`.
- `jdbc_types.dfy`: the `java.sql.Types` codes (JDBC 3.0), their names, the
  `DatabaseMetaData` nullability codes and the Java integer bounds.
- `ddl_model.dfy`: the type descriptor, and the parts of a column and a
  relationship that the dialect reads. Also the warning it records.
- `hsqldb_ddl_generator.dfy`: the dialect itself.
  - The type map is a pure function, `HsqldbTypeMap`.
  - `IsHsqldbTypeMap` characterises the map property by property, and a set
    of lemmas relates the two.
  - `WarningsAfter` gives the warnings list after the clause hook has been
    called for a sequence of relationships. A lemma relates it to the
    relationships that ask for deferred checking.
  - The class `HsqldbDdlGenerator` holds the `typeMap` and `warnings` fields
    and the methods that change them.

The type map is specified independently of the table. For each type code:

- The descriptor's code equals the key.
- The physical name is the code's JDBC name, except that BLOB is written
  `LONGVARBINARY` and CLOB is written `LONGVARCHAR`.
- The maximum length is the table's length column, grouped by value
  (`MaxLength`). The unbounded character and binary types use the sentinel
  `UNBOUNDED_LENGTH`, which is 4000000000.
- Literal quoting, precision support and scale support hold exactly for
  the listed sets of types.
- Every type is nullable.

The table is proved to satisfy this characterisation, and the
characterisation is proved to determine the map uniquely.

Points of the code that the model keeps as they are:

- HSQLDB's map leaves out eight of the thirty JDBC 3.0 codes: NULL, OTHER,
  JAVA_OBJECT, DISTINCT, STRUCT, ARRAY, REF and DATALINK. `UnmappedTypeCodes`
  states which ones.
- For a relationship that asks for deferred checking, this dialect returns
  `NOT SUPPORTED` rather than an empty clause, and the model does the same.
- CLOB shares LONGVARCHAR's physical name, but its literals are unquoted,
  while LONGVARCHAR's are quoted. `LargeObjectAliases` records this.

## Model

| member | source | states |
|---|---|---|
| `HsqldbDdl.HsqldbDdlGenerator.Name` | src/ca/sqlpower/architect/ddl/HSQLDBDDLGenerator.java:58-61 | the dialect's name is "HSQLDB" |
| `HsqldbDdl.HsqldbDdlGenerator.CatalogTerm` | src/ca/sqlpower/architect/ddl/HSQLDBDDLGenerator.java:63-66 | there is no catalog term (null): HSQLDB has no catalog concept |
| `HsqldbDdl.HsqldbDdlGenerator.SchemaTerm` | src/ca/sqlpower/architect/ddl/HSQLDBDDLGenerator.java:68-71 | the schema term is present and is "Schema" |
| `HsqldbDdl.HsqldbDdlGenerator.ColumnType` | src/ca/sqlpower/architect/ddl/HSQLDBDDLGenerator.java:73-80 | an auto-increment column gets "IDENTITY"; any other column gets exactly the generic generator's type |
| `HsqldbDdl.HsqldbDdlGenerator.IdentityIgnoresSqlType` | src/ca/sqlpower/architect/ddl/HSQLDBDDLGenerator.java:75-76 | for auto-increment columns the result does not depend on the SQL type or on the generic generator |
| `HsqldbDdl.DeferrabilityClause` | src/ca/sqlpower/architect/ddl/HSQLDBDDLGenerator.java:83-91 | a warning is raised exactly when the relationship is not NOT_DEFERRABLE; the clause is empty exactly when no warning is raised, and is "NOT SUPPORTED" otherwise; the warning is an unsupported-feature warning with the fixed message about the relationship |
| `HsqldbDdl.Record` | src/ca/sqlpower/architect/ddl/HSQLDBDDLGenerator.java:85-86 | recording a warning appends exactly that one warning after all earlier ones, which keep their order; with no warning the list is unchanged |
| `HsqldbDdl.HsqldbDdlGenerator.GetDeferrabilityClause` | src/ca/sqlpower/architect/ddl/HSQLDBDDLGenerator.java:83-91 | returns the clause of `DeferrabilityClause`; the new warnings list is the old one with that clause's warning, if any, appended; the type map is unchanged |
| `HsqldbDdl.RunWarnsOncePerDeferred` | src/ca/sqlpower/architect/ddl/HSQLDBDDLGenerator.java:83-91 | when the clause is requested for a sequence of relationships in turn, the earlier warnings stay in front and exactly one deferred-checking warning follows for each relationship that asks for deferred checking, in visiting order; not-deferrable relationships add none |
| `HsqldbDdl.HsqldbTypeMap` | src/ca/sqlpower/architect/ddl/HSQLDBDDLGenerator.java:97-118 | the 22 entries as put, each carrying its own key as its type code; `HsqldbTypeMapCharacterised` and `HsqldbTypeMapIsUnique` show it is the one map meeting `IsHsqldbTypeMap` |
| `HsqldbDdl.WarningsAfter` | src/ca/sqlpower/architect/ddl/HSQLDBDDLGenerator.java:83-91 | the warnings list after the hook has been called for each relationship in turn: the earlier warnings stay as a prefix, and at most one warning is added per relationship |
| `HsqldbDdl.HsqldbDdlGenerator.CreateTypeMap` | src/ca/sqlpower/architect/ddl/HSQLDBDDLGenerator.java:94-119 | the field afterwards holds HSQLDB's map, which satisfies the characterisation whatever the field held before (nothing is merged in); warnings are unchanged |
| `HsqldbDdl.HsqldbTypeMapCharacterised` | src/ca/sqlpower/architect/ddl/HSQLDBDDLGenerator.java:95-118 | the map's keys are exactly the 22 codes BIGINT … VARCHAR, and each entry carries its key as code, the expected physical name, maximum length, quoting, nullability (columnNullable), precision support and scale support |
| `HsqldbDdl.HsqldbTypeMapIsUnique` | src/ca/sqlpower/architect/ddl/HSQLDBDDLGenerator.java:95-118 | the characterisation fixes every field of every entry: two maps that satisfy it are equal |
| `HsqldbDdl.UnmappedTypeCodes` | src/ca/sqlpower/architect/ddl/HSQLDBDDLGenerator.java:95-118 | among the JDBC type codes, exactly NULL, OTHER, JAVA_OBJECT, DISTINCT, STRUCT, ARRAY, REF and DATALINK have no entry |
| `HsqldbDdl.PhysicalNamesDistinct` | src/ca/sqlpower/architect/ddl/HSQLDBDDLGenerator.java:97-118 | two different HSQLDB codes get the same physical name exactly when they are BLOB/LONGVARBINARY or CLOB/LONGVARCHAR |
| `HsqldbDdl.LargeObjectAliases` | src/ca/sqlpower/architect/ddl/HSQLDBDDLGenerator.java:100-110 | in the map only BLOB/LONGVARBINARY and CLOB/LONGVARCHAR share a physical name; BLOB is LONGVARBINARY, CLOB is LONGVARCHAR; CLOB literals are unquoted while LONGVARCHAR literals are quoted |
| `HsqldbDdl.UnboundedLengthExceedsInt32` | src/ca/sqlpower/architect/ddl/HSQLDBDDLGenerator.java:97-118 | an entry's length exceeds the largest Java int exactly for the unbounded binary and character types; every length fits a Java long; the length is 0 exactly for DATE, TIME and TIMESTAMP |
| `HsqldbDdl.HsqldbDdlGenerator.constructor` | src/ca/sqlpower/architect/ddl/HSQLDBDDLGenerator.java:54-56 | a new generator starts with no warnings and with HSQLDB's type map installed |

## Left out

- The generic generator (`GenericDDLGenerator`) is not part of this model.
  Its `columnType` enters `ColumnType` as the opaque parameter
  `genericColumnType`. Its statement assembly is not modelled.
- `HsqldbDdl.HsqldbDdlGenerator.constructor`: this assumes that the
  superclass constructor starts an empty warnings list and calls
  `createTypeMap`. That code is not part of this model.
- `HsqldbDdl.HsqldbDdlGenerator.CreateTypeMap`: the method assigns a
  finished map, given by `HsqldbTypeMap`, instead of putting 22 entries
  into the field one at a time. No other code can observe the map while it
  is half filled, because generation is single-threaded.
- The `SQLException` declarations are left out. No statement in this file
  raises `SQLException` itself; a failure of the superclass constructor
  is not modelled, so the model's constructor has no failure path.
- The map holds descriptors by value, so Java object identity of
  descriptors is not modelled.
- `SQLColumn` and `SQLRelationship` are reduced to what the dialect reads:
  - a column's auto-increment flag, plus a number standing for the column
    object's identity; through it, `genericColumnType` stands for the
    generic generator's view of the whole column, precision and scale
    included (the column's name and JDBC type are kept only for clients);
  - a relationship's deferrability;
  - a number standing for the relationship's object identity, used as the
    warning's subject.
- Warnings other than the deferred-checking one are opaque (`OtherWarning`):
  the model keeps them in the list but not their contents.
- The JDBC 4.0 type codes (NCHAR, NVARCHAR, LONGNVARCHAR, NCLOB, ROWID,
  SQLXML) are not in the enumeration. HSQLDB's map has no entry for them
  either.
- Maximum lengths are unbounded naturals. Separate lemmas prove the bounds
  against Java `int` and `long`.
