/**
 * The physical plan: execution steps, the holders a step builds into, and the
 * value-type behaviour of the `TableGroupBy` step and the `KStreamHolder`
 * holder (null checks, getters, equality, hash code, copy-with).
 */
module Plan {
  import opened Wrappers
  import opened JavaLang
  import opened Schema
  import opened Runtime
  import opened Windows

  datatype ExecutionStepProperties = ExecutionStepProperties(schema: LogicalSchema, queryContext: QueryContext)

  /** A SQL expression, known by its text; the expression tree is not modelled. */
  datatype Expression = Expression(sql: string)

  /** An aggregate call such as `SUM(X)`. */
  datatype FunctionCall = FunctionCall(name: string, args: seq<Expression>)

  /** The steps of a physical plan that the modelled builders consume. */
  datatype ExecutionStep =
    | StreamSource(properties: ExecutionStepProperties, topicName: string)
    | TableSource(properties: ExecutionStepProperties, topicName: string)
    | TableGroupBy(properties: ExecutionStepProperties, source: ExecutionStep, formats: Formats,
                   groupByExpressions: seq<Expression>)
    | StreamAggregate(properties: ExecutionStepProperties, source: ExecutionStep, formats: Formats,
                      nonFuncColumnCount: int, aggregations: seq<FunctionCall>)
    | StreamWindowedAggregate(properties: ExecutionStepProperties, source: ExecutionStep, formats: Formats,
                              nonFuncColumnCount: int, aggregations: seq<FunctionCall>,
                              windowExpression: KsqlWindowExpression)
    | StreamSink(properties: ExecutionStepProperties, source: ExecutionStep, formats: Formats, topicName: string)
    | TableSink(properties: ExecutionStepProperties, source: ExecutionStep, formats: Formats, topicName: string)

  /** What `MaterializationInfo.Builder` was given; `build()` turns it into the info. */
  datatype MaterializationInfoBuilder = MaterializationInfoBuilder(
    context: QueryContext, nonFuncColumns: int, aggregations: seq<FunctionCall>,
    sourceSchema: LogicalSchema, aggregateSchema: LogicalSchema, resultSchema: LogicalSchema)

  datatype MaterializationInfo = MaterializationInfo(builtFrom: MaterializationInfoBuilder)

  datatype KStreamHolder = KStreamHolder(stream: KStream, keySerdeFactory: KeySerdeFactory, schema: LogicalSchema)

  datatype KTableHolder = KTableHolder(
    table: KTable, schema: LogicalSchema, keySerdeFactory: KeySerdeFactory,
    materializationBuilder: Option<MaterializationInfoBuilder>)

  datatype KGroupedStreamHolder = KGroupedStreamHolder(groupedStream: GroupedStream, schema: LogicalSchema)

  datatype KGroupedTableHolder = KGroupedTableHolder(groupedTable: string, schema: LogicalSchema)

  /** The object `ExecutionStep.build` returns. */
  datatype BuildResult =
    | StreamResult(streamHolder: KStreamHolder)
    | TableResult(tableHolder: KTableHolder)
    | GroupedStreamResult(groupedStreamHolder: KGroupedStreamHolder)
    | GroupedTableResult(groupedTableHolder: KGroupedTableHolder)

  /** A `PlanBuilder` visitor: one entry for group-by nodes, one for all the others. */
  datatype PlanBuilder = PlanBuilder(
    visitTableGroupBy: ExecutionStep -> KGroupedTableHolder,
    visitOther: ExecutionStep -> BuildResult)

  /** Any Java object a step may be compared with. */
  datatype JavaObject = Null | StepObject(step: ExecutionStep) | OtherObject(className: string)

  // ---------------------------------------------------------------------------
  // TableGroupBy
  // ---------------------------------------------------------------------------

  /** The constructor: each field must be non-null, checked in declaration order. */
  function NewTableGroupBy(
    properties: Option<ExecutionStepProperties>, source: Option<ExecutionStep>,
    formats: Option<Formats>, groupByExpressions: Option<seq<Expression>>): (r: Result<ExecutionStep, Exn>)
    ensures r.Success? <==> properties.Some? && source.Some? && formats.Some? && groupByExpressions.Some?
    ensures r.Success? ==> (r.value.TableGroupBy?
      && r.value.properties == properties.value && r.value.source == source.value
      && r.value.formats == formats.value && r.value.groupByExpressions == groupByExpressions.value)
    ensures r.Failure? ==> r.error.cls == NullPointer
    ensures properties.None? ==> r.Failure? && r.error.message == "properties"
    ensures properties.Some? && source.None? ==> r.Failure? && r.error.message == "source"
    ensures properties.Some? && source.Some? && formats.None? ==> r.Failure? && r.error.message == "formats"
    ensures properties.Some? && source.Some? && formats.Some? && groupByExpressions.None? ==>
              r.Failure? && r.error.message == "groupByExpressions"
  {
    if properties.None? then Failure(Exn(NullPointer, "properties"))
    else if source.None? then Failure(Exn(NullPointer, "source"))
    else if formats.None? then Failure(Exn(NullPointer, "formats"))
    else if groupByExpressions.None? then Failure(Exn(NullPointer, "groupByExpressions"))
    else Success(TableGroupBy(properties.value, source.value, formats.value, groupByExpressions.value))
  }

  /** `getSources()`: the inputs of a step; every input is a strict part of the step. */
  function Sources(step: ExecutionStep): (r: seq<ExecutionStep>)
    ensures forall k :: 0 <= k < |r| ==> r[k] < step
    ensures step.TableGroupBy? ==> r == [step.source]
    ensures step.StreamSource? || step.TableSource? <==> r == []
  {
    match step
    case StreamSource(_, _) => []
    case TableSource(_, _) => []
    case _ => [step.source]
  }

  /** `build(planBuilder)`: a group-by node is handed, itself, to `visitTableGroupBy`. */
  function Build(step: ExecutionStep, builder: PlanBuilder): (r: BuildResult)
    ensures step.TableGroupBy? ==> r.GroupedTableResult? && r.groupedTableHolder == builder.visitTableGroupBy(step)
    ensures !step.TableGroupBy? ==> r == builder.visitOther(step)
  {
    if step.TableGroupBy? then GroupedTableResult(builder.visitTableGroupBy(step)) else builder.visitOther(step)
  }

  /**
   * `equals(o)`: false for null and for objects of another class, otherwise
   * field-by-field. The `this == o` shortcut is covered, since the same
   * object has equal fields.
   */
  function TableGroupByEquals(self: ExecutionStep, o: JavaObject): (r: bool)
    requires self.TableGroupBy?
    ensures r <==> o == StepObject(self)
  {
    if o.Null? || !o.StepObject? || !o.step.TableGroupBy? then false
    else
      var that := o.step;
      self.properties == that.properties && self.source == that.source
      && self.formats == that.formats && self.groupByExpressions == that.groupByExpressions
  }

  /** The hash codes of the field values, computed by their own classes. */
  datatype StepHashing = StepHashing(
    properties: ExecutionStepProperties -> int,
    step: ExecutionStep -> int,
    formats: Formats -> int,
    expression: Expression -> int)

  /** `List.hashCode()`: the `Objects.hash` fold over the element hash codes. */
  function ListHashCode<T>(xs: seq<T>, h: T -> int): (r: int)
    ensures IsInt(r)
  {
    ObjectsHash(seq(|xs|, i requires 0 <= i < |xs| => h(xs[i])))
  }

  /** `hashCode()`: `Objects.hash(properties, source, formats, groupByExpressions)`. */
  function TableGroupByHash(self: ExecutionStep, hs: StepHashing): (r: int)
    requires self.TableGroupBy?
    ensures IsInt(r)
  {
    ObjectsHash([hs.properties(self.properties), hs.step(self.source), hs.formats(self.formats),
                 ListHashCode(self.groupByExpressions, hs.expression)])
  }

  /** The hash is the 32-bit value of `31^4 + 31^3 p + 31^2 s + 31 f + g` over the four field hashes. */
  lemma TableGroupByHashClosedForm(self: ExecutionStep, hs: StepHashing)
    requires self.TableGroupBy?
    ensures TableGroupByHash(self, hs) == WrapInt(923521 + 29791 * hs.properties(self.properties)
      + 961 * hs.step(self.source) + 31 * hs.formats(self.formats)
      + ListHashCode(self.groupByExpressions, hs.expression))
  {
    var hsq := [hs.properties(self.properties), hs.step(self.source), hs.formats(self.formats),
                ListHashCode(self.groupByExpressions, hs.expression)];
    assert hsq[..3][..2] == hsq[..2] && hsq[..2][..1] == hsq[..1] && hsq[..1][..0] == [];
    assert Polynomial(1, hsq[..1]) == 31 + hsq[0];
    assert Polynomial(1, hsq[..2]) == 31 * (31 + hsq[0]) + hsq[1];
    assert Polynomial(1, hsq[..3]) == 31 * (31 * (31 + hsq[0]) + hsq[1]) + hsq[2];
    assert Polynomial(1, hsq) == 31 * Polynomial(1, hsq[..3]) + hsq[3];
  }

  /** Equal nodes have equal hash codes. */
  lemma TableGroupByHashConsistent(a: ExecutionStep, b: ExecutionStep, hs: StepHashing)
    requires a.TableGroupBy? && TableGroupByEquals(a, StepObject(b))
    ensures b.TableGroupBy? && TableGroupByHash(a, hs) == TableGroupByHash(b, hs)
  {
  }

  /** Equality is symmetric: it never depends on which side's `equals` is called. */
  lemma TableGroupByEqualsSymmetric(a: ExecutionStep, b: ExecutionStep)
    requires a.TableGroupBy? && b.TableGroupBy?
    ensures TableGroupByEquals(a, StepObject(b)) == TableGroupByEquals(b, StepObject(a))
  {
  }

  // ---------------------------------------------------------------------------
  // KStreamHolder
  // ---------------------------------------------------------------------------

  /**
   * The constructor, taking `(stream, schema, keySerdeFactory)` and checking
   * stream, then key-serde factory, then schema (whose message reads "shcema").
   */
  function NewKStreamHolder(stream: Option<KStream>, schema: Option<LogicalSchema>,
                            keySerdeFactory: Option<KeySerdeFactory>): (r: Result<KStreamHolder, Exn>)
    ensures r.Success? <==> stream.Some? && schema.Some? && keySerdeFactory.Some?
    ensures r.Success? ==> r.value.stream == stream.value && r.value.schema == schema.value
                           && r.value.keySerdeFactory == keySerdeFactory.value
    ensures r.Failure? ==> r.error.cls == NullPointer
    ensures stream.None? ==> r.Failure? && r.error.message == "stream"
    ensures stream.Some? && keySerdeFactory.None? ==> r.Failure? && r.error.message == "keySerdeFactory"
  {
    if stream.None? then Failure(Exn(NullPointer, "stream"))
    else if keySerdeFactory.None? then Failure(Exn(NullPointer, "keySerdeFactory"))
    else if schema.None? then Failure(Exn(NullPointer, "shcema"))
    else Success(KStreamHolder(stream.value, keySerdeFactory.value, schema.value))
  }

  /** `withStream(stream, schema)`: a new holder that keeps this holder's key-serde factory. */
  function WithStream(h: KStreamHolder, stream: Option<KStream>, schema: Option<LogicalSchema>): (r: Result<KStreamHolder, Exn>)
    ensures r.Success? <==> stream.Some? && schema.Some?
    ensures r.Success? ==> r.value.stream == stream.value && r.value.schema == schema.value
                           && r.value.keySerdeFactory == h.keySerdeFactory
  {
    NewKStreamHolder(stream, schema, Some(h.keySerdeFactory))
  }

  /** Replacing a holder's stream twice is the same as replacing it once with the last one. */
  lemma WithStreamTwice(h: KStreamHolder, s1: KStream, c1: LogicalSchema, s2: KStream, c2: LogicalSchema)
    ensures WithStream(WithStream(h, Some(s1), Some(c1)).value, Some(s2), Some(c2))
         == WithStream(h, Some(s2), Some(c2))
  {
  }

  /** A holder rebuilt from its own stream and schema is the same holder. */
  lemma WithStreamOwnFields(h: KStreamHolder)
    ensures WithStream(h, Some(h.stream), Some(h.schema)) == Success(h)
  {
  }
}
