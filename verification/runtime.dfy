/**
 * Kafka Streams objects (streams, tables, grouped streams, windows, stores,
 * serdes) as symbolic terms: each value records the call that built it and
 * its arguments, so that a builder's result says exactly which runtime calls
 * were made and in what nesting. What those calls do at run time belongs to
 * Kafka Streams and is not modelled.
 */
module Runtime {
  import opened Wrappers
  import opened Schema

  /** A query context: the stack of names identifying a step of a query. */
  type QueryContext = seq<string>

  datatype FormatInfo = FormatInfo(format: string)

  datatype Formats = Formats(keyFormat: FormatInfo, valueFormat: FormatInfo, options: set<string>)

  /** `PhysicalSchema.from(schema, options)`. */
  datatype PhysicalSchema = PhysicalSchema(logical: LogicalSchema, options: set<string>)

  /** How a holder builds its key serde. */
  datatype KeySerdeFactory =
    | UnwindowedKeySerdes       // (fmt, schema, ctx) -> queryBuilder.buildKeySerde(...)
    | WindowedKeySerdes         // KeySerdeFactory.windowed(queryBuilder)
    | SuppliedKeySerdes(id: string)

  /** A key serde, recording the factory and the arguments it was built with. */
  datatype KeySerde = KeySerde(factory: KeySerdeFactory, format: FormatInfo, schema: PhysicalSchema, context: QueryContext)

  /** `queryBuilder.buildValueSerde(format, schema, ctx)`. */
  datatype ValueSerde = ValueSerde(format: FormatInfo, schema: PhysicalSchema, context: QueryContext)

  /** Callbacks handed to Kafka Streams; their code is outside this model. */
  datatype Callback =
    | Initializer(aggregation: nat)
    | Aggregator(aggregation: nat)
    | Merger(aggregation: nat)
    | ResultMapper(aggregation: nat)
    | WindowSelectMapper(aggregation: nat)
    | SelectMapper(id: nat)

  /** A `ValueMapper` applied by `mapValues`. */
  datatype ValueMapper =
    | StripIndexes(excluded: set<int>)   // the sink builders' row-stripping lambda
    | Apply(callback: Callback)

  datatype WindowSpec =
    | TimeWindows(sizeMs: int, advanceMs: Option<int>)   // TimeWindows.of(size)[.advanceBy(advance)]
    | SessionWindows(gapMs: int)                          // SessionWindows.with(gap)

  /** A `Materialized`: the store description handed to an aggregation. */
  datatype Materialized =
    | MaterializedFor(context: QueryContext, schema: LogicalSchema, formats: Formats)
    | MaterializedWith(keySerde: KeySerde, valueSerde: ValueSerde, opNameOf: QueryContext)  // op name built from the context

  datatype GroupedStream = GroupedStream(name: string)

  datatype KStream =
    | SourceStream(topic: string)
    | TableChanges(table: KTable)                   // table.toStream()
    | MappedStream(stream: KStream, mapper: ValueMapper)

  datatype KTable =
    | SourceTable(topic: string)
    | Aggregated(grouped: GroupedStream, init: Callback, agg: Callback, store: Materialized)
    | WindowAggregated(grouped: GroupedStream, windows: WindowSpec, init: Callback, agg: Callback,
                       merger: Option<Callback>, store: Materialized)
    | MappedTable(table: KTable, mapper: ValueMapper)

  /** `stream.to(topic, Produced.with(keySerde, valueSerde))`. */
  datatype SinkOutput = SinkOutput(stream: KStream, topic: string, keySerde: KeySerde, valueSerde: ValueSerde)
}
