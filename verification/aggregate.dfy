/**
 * The aggregate builder: how a grouped stream becomes an aggregated table,
 * unwindowed or windowed, and which Kafka Streams calls each window kind
 * leads to.
 */
module StreamAggregates {
  import opened Wrappers
  import opened JavaLang
  import opened Windows
  import opened Schema
  import opened Runtime
  import opened Plan

  /** What `AggregateParamsFactory.create` returns: schemas and the aggregation callbacks. */
  datatype AggregateParams = AggregateParams(
    aggregateSchema: LogicalSchema,
    schema: LogicalSchema,
    initializer: Callback,
    aggregator: Callback,
    merger: Callback,
    resultMapper: Callback,
    windowSelectMapper: Callback,
    windowSelectHasSelects: bool)

  /** The arguments of an `AggregateParamsFactory.create` call. */
  datatype ParamsRequest = ParamsRequest(
    sourceSchema: LogicalSchema, nonFuncColumns: int, functionRegistry: string, aggregations: seq<FunctionCall>)

  /** `AggregateParamsFactory`, which is not part of this model. */
  type ParamsFactory = ParamsRequest -> AggregateParams

  /** The parts of `KsqlQueryBuilder` the builder reads. */
  datatype QueryBuilder = QueryBuilder(functionRegistry: string)

  /** A build: the holder returned, and every call made to the params factory, in order. */
  datatype AggregateBuild = AggregateBuild(holder: KTableHolder, paramsRequests: seq<ParamsRequest>)

  /** The table a chain of `mapValues` calls starts from. */
  function BaseTable(t: KTable): KTable
  {
    if t.MappedTable? then BaseTable(t.table) else t
  }

  /** The mappers applied to the base table, innermost first. */
  function MapperChain(t: KTable): seq<ValueMapper>
  {
    if t.MappedTable? then MapperChain(t.table) + [t.mapper] else []
  }

  /** The request a build makes: the grouped stream's schema, the step's counts and calls, the registry. */
  function RequestFor(grouped: KGroupedStreamHolder, aggregate: ExecutionStep, queryBuilder: QueryBuilder): ParamsRequest
    requires aggregate.StreamAggregate? || aggregate.StreamWindowedAggregate?
  {
    ParamsRequest(grouped.schema, aggregate.nonFuncColumnCount, queryBuilder.functionRegistry, aggregate.aggregations)
  }

  /** `AggregateBuilderUtils.materializationInfoBuilder(...)`. */
  function InfoBuilder(grouped: KGroupedStreamHolder, aggregate: ExecutionStep, params: AggregateParams): MaterializationInfoBuilder
    requires aggregate.StreamAggregate? || aggregate.StreamWindowedAggregate?
  {
    MaterializationInfoBuilder(aggregate.properties.queryContext, aggregate.nonFuncColumnCount,
      aggregate.aggregations, grouped.schema, params.aggregateSchema, params.schema)
  }

  // ---------------------------------------------------------------------------
  // Unwindowed
  // ---------------------------------------------------------------------------

  /** `build(groupedStream, StreamAggregate, ...)`. */
  function BuildAggregate(grouped: KGroupedStreamHolder, aggregate: ExecutionStep,
                          queryBuilder: QueryBuilder, factory: ParamsFactory): (r: AggregateBuild)
    requires aggregate.StreamAggregate?
    ensures r.paramsRequests == [RequestFor(grouped, aggregate, queryBuilder)]
    ensures var params := factory(r.paramsRequests[0]);
            && BaseTable(r.holder.table) == Aggregated(grouped.groupedStream, params.initializer, params.aggregator,
                 MaterializedFor(aggregate.properties.queryContext, params.aggregateSchema, aggregate.formats))
            && MapperChain(r.holder.table) == [Apply(params.resultMapper)]
            && r.holder.schema == params.schema
            && r.holder.keySerdeFactory == UnwindowedKeySerdes
            && r.holder.materializationBuilder == Some(InfoBuilder(grouped, aggregate, params))
  {
    var request := RequestFor(grouped, aggregate, queryBuilder);
    var params := factory(request);
    var materialized := MaterializedFor(aggregate.properties.queryContext, params.aggregateSchema, aggregate.formats);
    var aggregated := Aggregated(grouped.groupedStream, params.initializer, params.aggregator, materialized);
    var holder := KTableHolder(MappedTable(aggregated, Apply(params.resultMapper)), params.schema,
                               UnwindowedKeySerdes, Some(InfoBuilder(grouped, aggregate, params)));
    AggregateBuild(holder, [request])
  }

  // ---------------------------------------------------------------------------
  // Windowed
  // ---------------------------------------------------------------------------

  /** The `TimeWindows` or `SessionWindows` a window expression leads to, sizes converted to milliseconds. */
  function WindowsFor(w: KsqlWindowExpression): (r: WindowSpec)
    requires ValidWindow(w)
    ensures w.HoppingWindow? ==> r == TimeWindows(ToMillis(w.sizeUnit, w.size), Some(ToMillis(w.advanceByUnit, w.advanceBy)))
    ensures w.TumblingWindow? ==> r == TimeWindows(ToMillis(w.sizeUnit, w.size), None)
    ensures w.SessionWindow? ==> r == SessionWindows(ToMillis(w.sizeUnit, w.gap))
  {
    match w
    case HoppingWindow(size, sizeUnit, advanceBy, advanceByUnit) =>
      TimeWindows(ToMillis(sizeUnit, size), Some(ToMillis(advanceByUnit, advanceBy)))
    case TumblingWindow(size, sizeUnit) => TimeWindows(ToMillis(sizeUnit, size), None)
    case SessionWindow(gap, sizeUnit) => SessionWindows(ToMillis(sizeUnit, gap))
  }

  /**
   * `WindowedAggregator`: the serdes it builds from the aggregate schema, and
   * the visitor methods, one per window kind. Only a session window passes
   * the merger.
   */
  function WindowedAggregator(grouped: GroupedStream, aggregate: ExecutionStep,
                              params: AggregateParams): (r: KTable)
    requires aggregate.StreamWindowedAggregate? && ValidWindow(aggregate.windowExpression)
    ensures r.WindowAggregated? && r.grouped == grouped
    ensures r.init == params.initializer && r.agg == params.aggregator
    ensures r.windows == WindowsFor(aggregate.windowExpression)
    ensures r.merger.Some? <==> aggregate.windowExpression.SessionWindow?
    ensures r.merger.Some? ==> r.merger.value == params.merger
    ensures r.store.MaterializedWith? && r.store.opNameOf == aggregate.properties.queryContext
    ensures r.store.keySerde.schema.logical == r.store.valueSerde.schema.logical == params.aggregateSchema
  {
    var ctx := aggregate.properties.queryContext;
    var formats := aggregate.formats;
    var physical := PhysicalSchema(params.aggregateSchema, formats.options);
    var keySerde := KeySerde(UnwindowedKeySerdes, formats.keyFormat, physical, ctx);
    var valueSerde := ValueSerde(formats.valueFormat, physical, ctx);
    var store := MaterializedWith(keySerde, valueSerde, ctx);
    var windows := WindowsFor(aggregate.windowExpression);
    match aggregate.windowExpression
    case HoppingWindow(_, _, _, _) =>
      WindowAggregated(grouped, windows, params.initializer, params.aggregator, None, store)
    case SessionWindow(_, _) =>
      WindowAggregated(grouped, windows, params.initializer, params.aggregator, Some(params.merger), store)
    case TumblingWindow(_, _) =>
      WindowAggregated(grouped, windows, params.initializer, params.aggregator, None, store)
  }

  /** `build(groupedStream, StreamWindowedAggregate, ...)`. */
  function BuildWindowedAggregate(grouped: KGroupedStreamHolder, aggregate: ExecutionStep,
                                  queryBuilder: QueryBuilder, factory: ParamsFactory): (r: AggregateBuild)
    requires aggregate.StreamWindowedAggregate? && ValidWindow(aggregate.windowExpression)
    ensures r.paramsRequests == [RequestFor(grouped, aggregate, queryBuilder)]
    ensures var params := factory(r.paramsRequests[0]);
            && BaseTable(r.holder.table) == WindowedAggregator(grouped.groupedStream, aggregate, params)
            && MapperChain(r.holder.table)
               == [Apply(params.resultMapper)] + (if params.windowSelectHasSelects then [Apply(params.windowSelectMapper)] else [])
            && r.holder.schema == params.schema
            && r.holder.keySerdeFactory == WindowedKeySerdes
            && r.holder.materializationBuilder == Some(InfoBuilder(grouped, aggregate, params))
  {
    var request := RequestFor(grouped, aggregate, queryBuilder);
    var params := factory(request);
    var aggregated := WindowedAggregator(grouped.groupedStream, aggregate, params);
    var reduced := MappedTable(aggregated, Apply(params.resultMapper));
    var info := Some(InfoBuilder(grouped, aggregate, params));
    var table := if !params.windowSelectHasSelects then reduced else MappedTable(reduced, Apply(params.windowSelectMapper));
    assert BaseTable(reduced) == aggregated && MapperChain(reduced) == [] + [Apply(params.resultMapper)];
    AggregateBuild(KTableHolder(table, params.schema, WindowedKeySerdes, info), [request])
  }

  // ---------------------------------------------------------------------------
  // Properties
  // ---------------------------------------------------------------------------

  /** How many times a mapper occurs in a chain. */
  function Occurrences(chain: seq<ValueMapper>, m: ValueMapper): nat
  {
    if |chain| == 0 then 0
    else Occurrences(chain[..|chain| - 1], m) + (if chain[|chain| - 1] == m then 1 else 0)
  }

  /**
   * The window-select mapper is applied exactly once when it has selects and
   * not at all otherwise, and the result mapper exactly once either way.
   */
  lemma WindowSelectAppliedAtMostOnce(grouped: KGroupedStreamHolder, aggregate: ExecutionStep,
                                      queryBuilder: QueryBuilder, factory: ParamsFactory)
    requires aggregate.StreamWindowedAggregate? && ValidWindow(aggregate.windowExpression)
    requires factory(RequestFor(grouped, aggregate, queryBuilder)).resultMapper
          != factory(RequestFor(grouped, aggregate, queryBuilder)).windowSelectMapper
    ensures var params := factory(RequestFor(grouped, aggregate, queryBuilder));
            var chain := MapperChain(BuildWindowedAggregate(grouped, aggregate, queryBuilder, factory).holder.table);
            && Occurrences(chain, Apply(params.windowSelectMapper)) == (if params.windowSelectHasSelects then 1 else 0)
            && Occurrences(chain, Apply(params.resultMapper)) == 1
  {
    var params := factory(RequestFor(grouped, aggregate, queryBuilder));
    var chain := MapperChain(BuildWindowedAggregate(grouped, aggregate, queryBuilder, factory).holder.table);
    var first := [Apply(params.resultMapper)];
    assert first[..0] == [];
    assert Occurrences(first, Apply(params.windowSelectMapper)) == 0;
    assert Occurrences(first, Apply(params.resultMapper)) == 1;
    if params.windowSelectHasSelects {
      assert chain == first + [Apply(params.windowSelectMapper)];
      assert chain[..1] == first;
    } else {
      assert chain == first;
    }
  }

  /**
   * Unwindowed, the aggregate is stored under the aggregate schema with no
   * window and no merger, the result mapper is the one mapper applied, once,
   * and the window-select mapper is never applied.
   */
  lemma AggregateMappedOnce(grouped: KGroupedStreamHolder, aggregate: ExecutionStep,
                            queryBuilder: QueryBuilder, factory: ParamsFactory)
    requires aggregate.StreamAggregate?
    ensures var params := factory(RequestFor(grouped, aggregate, queryBuilder));
            var b := BuildAggregate(grouped, aggregate, queryBuilder, factory);
            var chain := MapperChain(b.holder.table);
            && |b.paramsRequests| == 1
            && BaseTable(b.holder.table).Aggregated?
            && BaseTable(b.holder.table).store.MaterializedFor?
            && BaseTable(b.holder.table).store.schema == params.aggregateSchema
            && |chain| == 1
            && Occurrences(chain, Apply(params.resultMapper)) == 1
            && (params.windowSelectMapper != params.resultMapper ==>
                  Occurrences(chain, Apply(params.windowSelectMapper)) == 0)
  {
    var params := factory(RequestFor(grouped, aggregate, queryBuilder));
    var chain := MapperChain(BuildAggregate(grouped, aggregate, queryBuilder, factory).holder.table);
    assert chain == [Apply(params.resultMapper)];
    assert chain[..0] == [];
  }

  /** Only a session window merges: hopping and tumbling windows never pass a merger. */
  lemma MergerOnlyForSessions(grouped: KGroupedStreamHolder, aggregate: ExecutionStep,
                              queryBuilder: QueryBuilder, factory: ParamsFactory)
    requires aggregate.StreamWindowedAggregate? && ValidWindow(aggregate.windowExpression)
    ensures var t := BaseTable(BuildWindowedAggregate(grouped, aggregate, queryBuilder, factory).holder.table);
            t.WindowAggregated? && (t.merger.Some? <==> aggregate.windowExpression.SessionWindow?)
  {
  }

  /**
   * The window sizes handed to Kafka Streams are Java longs and never wrap:
   * each is the exact millisecond count clamped to the long range.
   */
  lemma WindowSizesClamped(w: KsqlWindowExpression)
    requires ValidWindow(w)
    ensures var r := WindowsFor(w);
            && (r.TimeWindows? ==> IsLong(r.sizeMs) && r.sizeMs == ClampLong(ExactMillis(w.sizeUnit, w.size)))
            && (r.TimeWindows? && r.advanceMs.Some? ==>
                  r.advanceMs.value == ClampLong(ExactMillis(w.advanceByUnit, w.advanceBy)))
            && (r.SessionWindows? ==> r.gapMs == ClampLong(ExactMillis(w.sizeUnit, w.gap)))
  {
    match w
    case HoppingWindow(size, sizeUnit, advanceBy, advanceByUnit) =>
      ToMillisIsClampedExact(sizeUnit, size);
      ToMillisIsClampedExact(advanceByUnit, advanceBy);
    case TumblingWindow(size, sizeUnit) =>
      ToMillisIsClampedExact(sizeUnit, size);
    case SessionWindow(gap, sizeUnit) =>
      ToMillisIsClampedExact(sizeUnit, gap);
  }
}
