/**
  The values the HSQLDB generator reads and produces: type descriptors of the
  type map, the parts of a column and a relationship it looks at, and the
  warnings it records.
 */
module DdlModel {
  import opened Wrappers
  import opened JdbcTypes

  /**
    A GenericTypeDescriptor: how one JDBC type code is written in the target
    dialect. `maxLength` is the largest length or precision a column of this
    type may declare (0 where the notion does not apply); the literal prefix
    and suffix quote literal values of the type, None standing for Java's null.
   */
  datatype TypeDescriptor = TypeDescriptor(
    name: string,
    dataType: int32,
    maxLength: nat,
    literalPrefix: Option<string>,
    literalSuffix: Option<string>,
    nullable: int32,
    precisionSupported: bool,
    scaleSupported: bool)

  /**
    An SQLColumn. The dialect itself reads only `autoIncrement`; `id` stands
    for the object's identity, through which the generic generator reaches
    everything else about the column (precision, scale, ...). `name` and
    `sqlType` are kept so that a client can state what it builds.
   */
  datatype Column = Column(id: nat, name: string, sqlType: int32, autoIncrement: bool)

  /** SQLRelationship.Deferrability. */
  datatype Deferrability = InitiallyDeferred | InitiallyImmediate | NotDeferrable

  /** The part of an SQLRelationship the dialect consults; `id` stands for the object's identity. */
  datatype Relationship = Relationship(id: nat, deferrability: Deferrability)

  /**
    A DDLWarning: an UnsupportedFeatureDDLWarning with its message and the
    relationship it concerns, or a warning of any other kind that the generic
    generator may have recorded earlier (`id` stands for that object).
   */
  datatype DdlWarning =
    | UnsupportedFeatureDdlWarning(message: string, subject: Relationship)
    | OtherWarning(id: nat)
}
