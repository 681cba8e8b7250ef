/**
 * The logical schema of a source or an intermediate result: key columns and
 * value columns, each optionally qualified by the source alias, and a flag
 * saying whether the builder adds the implicit ROWKEY/ROWTIME columns.
 */
module Schema {
  import opened Wrappers

  datatype SqlType =
    | SqlBoolean
    | SqlInt
    | SqlBigInt
    | SqlDouble
    | SqlString
    | SqlArray(element: SqlType)
    | SqlMap(valueType: SqlType)

  /** A column; `source` is the alias qualifying it, if any. */
  datatype Column = Column(source: Option<string>, name: string, ctype: SqlType)

  datatype LogicalSchema = LogicalSchema(implicitColumns: bool, key: seq<Column>, value: seq<Column>)

  predicate IsQualified(c: Column) { c.source.Some? }

  /** `isAliased()`: some column of the schema is qualified by a source alias. */
  predicate IsAliased(s: LogicalSchema)
  {
    (exists i :: 0 <= i < |s.key| && IsQualified(s.key[i]))
    || (exists i :: 0 <= i < |s.value| && IsQualified(s.value[i]))
  }

  function Unqualified(c: Column): (r: Column)
    ensures !IsQualified(r) && r.name == c.name && r.ctype == c.ctype
  {
    c.(source := None)
  }

  function UnqualifiedAll(cols: seq<Column>): (r: seq<Column>)
    ensures |r| == |cols|
    ensures forall i :: 0 <= i < |r| ==> r[i] == Unqualified(cols[i])
  {
    seq(|cols|, i requires 0 <= i < |cols| => Unqualified(cols[i]))
  }

  /** `withoutAlias()`: the same columns with their alias removed. */
  function WithoutAlias(s: LogicalSchema): (r: LogicalSchema)
    ensures !IsAliased(r)
    ensures r.implicitColumns == s.implicitColumns
    ensures r.key == UnqualifiedAll(s.key) && r.value == UnqualifiedAll(s.value)
  {
    LogicalSchema(s.implicitColumns, UnqualifiedAll(s.key), UnqualifiedAll(s.value))
  }

  /** On columns that carry no alias, removing the alias changes nothing. */
  lemma UnqualifiedAllOfUnqualified(cols: seq<Column>)
    requires forall i :: 0 <= i < |cols| ==> !IsQualified(cols[i])
    ensures UnqualifiedAll(cols) == cols
  {
    var r := UnqualifiedAll(cols);
    forall i | 0 <= i < |cols| ensures r[i] == cols[i] {
      assert r[i] == Unqualified(cols[i]);
    }
  }

  // ---------------------------------------------------------------------------
  // LogicalSchema.Builder
  // ---------------------------------------------------------------------------

  /** The state of a `LogicalSchema.Builder`: the columns added so far. */
  datatype SchemaBuilder = SchemaBuilder(implicitColumns: bool, key: seq<Column>, value: seq<Column>)

  /** `LogicalSchema.builder()`: empty, with implicit columns. */
  const NewBuilder: SchemaBuilder := SchemaBuilder(true, [], [])

  function NoImplicitColumns(b: SchemaBuilder): SchemaBuilder { b.(implicitColumns := false) }

  function KeyColumns(b: SchemaBuilder, cols: seq<Column>): SchemaBuilder { b.(key := b.key + cols) }

  function ValueColumns(b: SchemaBuilder, cols: seq<Column>): SchemaBuilder { b.(value := b.value + cols) }

  /** `valueColumn(name, type)`: an unqualified value column. */
  function ValueColumn(b: SchemaBuilder, name: string, t: SqlType): SchemaBuilder
  {
    b.(value := b.value + [Column(None, name, t)])
  }

  function BuildLogical(b: SchemaBuilder): LogicalSchema
  {
    LogicalSchema(b.implicitColumns, b.key, b.value)
  }
}
