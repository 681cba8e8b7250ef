/**
 * A projection step: the value mapper that evaluates the SELECT expressions
 * and the output schema derived from it.
 */
module Selections {
  import opened Wrappers
  import opened Schema
  import opened Runtime
  import opened Plan

  /** `SELECTION_CONTEXT`: the name pushed on the query context for the mapper's logger. */
  const SELECTION_CONTEXT: string := "PROJECT"

  /** One `expression AS alias` of the SELECT list. */
  datatype SelectExpression = SelectExpression(alias: string, expression: Expression)

  /** A compiled select: the output field name and the type of the expression. */
  datatype SelectInfo = SelectInfo(fieldName: string, expression: Expression, expressionType: SqlType)

  /** The processing logger of a query step, named by query id and query context. */
  datatype LoggerName = LoggerName(queryId: string, context: QueryContext)

  datatype SelectValueMapper = SelectValueMapper(selects: seq<SelectInfo>, logger: LoggerName)

  datatype Selection = Selection(mapper: SelectValueMapper, schema: LogicalSchema)

  /** `SelectValueMapperFactory.create`, which compiles the expressions; it is not part of this model. */
  type MapperFactory = (seq<SelectExpression>, LogicalSchema, LoggerName) -> SelectValueMapper

  /** The column a select contributes to the output schema. */
  function SelectColumn(s: SelectInfo): Column
  {
    Column(None, s.fieldName, s.expressionType)
  }

  /** The `for` loop of `buildSchema`: one `valueColumn` call per select, in order. */
  function AddSelectColumns(b: SchemaBuilder, selects: seq<SelectInfo>): (r: SchemaBuilder)
    ensures r.implicitColumns == b.implicitColumns && r.key == b.key
    ensures |r.value| == |b.value| + |selects|
    ensures r.value[..|b.value|] == b.value
    ensures forall i :: 0 <= i < |selects| ==> r.value[|b.value| + i] == SelectColumn(selects[i])
    decreases |selects|
  {
    if |selects| == 0 then b
    else AddSelectColumns(ValueColumn(b, selects[0].fieldName, selects[0].expressionType), selects[1..])
  }

  /** `buildSchema(sourceSchema, mapper)`. */
  function BuildSchema(sourceSchema: LogicalSchema, mapper: SelectValueMapper): (r: LogicalSchema)
    ensures r.implicitColumns
    ensures r.key == UnqualifiedAll(sourceSchema.key)
    ensures |r.value| == |mapper.selects|
    ensures forall i :: 0 <= i < |r.value| ==> r.value[i] == SelectColumn(mapper.selects[i])
  {
    var b := KeyColumns(NewBuilder, OutputKeyColumns(sourceSchema));
    BuildLogical(AddSelectColumns(b, mapper.selects))
  }

  /** The key columns of the projection: those of the source, taken without alias when it is aliased. */
  function OutputKeyColumns(sourceSchema: LogicalSchema): (r: seq<Column>)
    ensures r == UnqualifiedAll(sourceSchema.key)
  {
    if IsAliased(sourceSchema) then WithoutAlias(sourceSchema).key
    else
      assert forall i :: 0 <= i < |sourceSchema.key| ==> !IsQualified(sourceSchema.key[i]);
      UnqualifiedAllOfUnqualified(sourceSchema.key);
      sourceSchema.key
  }

  /** `Selection.of`: the mapper is built with the "PROJECT" logger, and the schema from that mapper. */
  function Of(queryId: string, queryContext: QueryContext, sourceSchema: LogicalSchema,
              selectExpressions: seq<SelectExpression>, factory: MapperFactory): (r: Selection)
    ensures r.mapper == factory(selectExpressions, sourceSchema, LoggerName(queryId, queryContext + [SELECTION_CONTEXT]))
    ensures r.schema == BuildSchema(sourceSchema, r.mapper)
  {
    var loggerName := LoggerName(queryId, queryContext + [SELECTION_CONTEXT]);
    var mapper := factory(selectExpressions, sourceSchema, loggerName);
    Selection(mapper, BuildSchema(sourceSchema, mapper))
  }

  /**
   * `SelectValueMapper.transform(row)`: null for a null row, otherwise one
   * value per select in order. `evaluate` gives a select's value for a row,
   * or None when evaluation fails (the error goes to the processing log and
   * the column is null).
   */
  function Transform<R, V>(mapper: SelectValueMapper, row: Option<R>, evaluate: (SelectInfo, R) -> Option<V>): (r: Option<seq<Option<V>>>)
    ensures row.None? <==> r.None?
    ensures r.Some? ==> |r.value| == |mapper.selects|
    ensures r.Some? ==> forall i :: 0 <= i < |r.value| ==> r.value[i] == evaluate(mapper.selects[i], row.value)
  {
    if row.None? then None
    else Some(seq(|mapper.selects|, i requires 0 <= i < |mapper.selects| => evaluate(mapper.selects[i], row.value)))
  }

  /** The key columns of the output never carry an alias, whether or not the source was aliased. */
  lemma OutputKeyUnaliased(sourceSchema: LogicalSchema, mapper: SelectValueMapper)
    ensures var r := BuildSchema(sourceSchema, mapper);
            && |r.key| == |sourceSchema.key|
            && forall i :: 0 <= i < |r.key| ==> (!IsQualified(r.key[i])
              && r.key[i].name == sourceSchema.key[i].name && r.key[i].ctype == sourceSchema.key[i].ctype)
  {
    var r := BuildSchema(sourceSchema, mapper);
    forall i | 0 <= i < |r.key|
      ensures !IsQualified(r.key[i]) && r.key[i].name == sourceSchema.key[i].name
      ensures r.key[i].ctype == sourceSchema.key[i].ctype
    {
      assert r.key[i] == Unqualified(sourceSchema.key[i]);
    }
  }

  /**
   * Every row the mapper produces has exactly one value per value column of
   * the selection's schema, and the value at position i is the one computed
   * for the column named by the i-th select.
   */
  lemma RowsMatchSchema<R, V>(queryId: string, ctx: QueryContext, sourceSchema: LogicalSchema,
                              selectExpressions: seq<SelectExpression>, factory: MapperFactory,
                              row: R, evaluate: (SelectInfo, R) -> Option<V>)
    ensures var sel := Of(queryId, ctx, sourceSchema, selectExpressions, factory);
            var out := Transform(sel.mapper, Some(row), evaluate);
            && out.Some? && |out.value| == |sel.schema.value|
            && forall i :: 0 <= i < |out.value| ==>
                 (sel.schema.value[i].name == sel.mapper.selects[i].fieldName
                  && out.value[i] == evaluate(sel.mapper.selects[i], row))
  {
    var sel := Of(queryId, ctx, sourceSchema, selectExpressions, factory);
    var out := Transform(sel.mapper, Some(row), evaluate);
    forall i | 0 <= i < |out.value|
      ensures sel.schema.value[i].name == sel.mapper.selects[i].fieldName
    {
      assert sel.schema.value[i] == SelectColumn(sel.mapper.selects[i]);
    }
  }

  /** Three selects evaluating to 100, 200 and 300 give the row (100, 200, 300); a null row gives null. */
  lemma ThreeSelectsExample(s0: SelectInfo, s1: SelectInfo, s2: SelectInfo, logger: LoggerName,
                            row: string, evaluate: (SelectInfo, string) -> Option<int>)
    requires evaluate(s0, row) == Some(100) && evaluate(s1, row) == Some(200) && evaluate(s2, row) == Some(300)
    ensures Transform(SelectValueMapper([s0, s1, s2], logger), Some(row), evaluate) == Some([Some(100), Some(200), Some(300)])
    ensures Transform(SelectValueMapper([s0, s1, s2], logger), None, evaluate) == None
  {
    var out := Transform(SelectValueMapper([s0, s1, s2], logger), Some(row), evaluate);
    assert |out.value| == 3;
    assert out.value[0] == Some(100) && out.value[1] == Some(200) && out.value[2] == Some(300);
    assert out.value == [Some(100), Some(200), Some(300)];
  }
}
