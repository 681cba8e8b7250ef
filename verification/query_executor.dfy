/**
 * The query executor's pure helpers: application ids, the Kafka Streams
 * property map of a query, the list-property merge that installs the metric
 * interceptors, the transient query schema, and the dispatch on what a
 * physical plan builds into.
 */
module QueryExecution {
  import opened Wrappers
  import opened JavaLang
  import opened Schema
  import opened Runtime
  import opened Plan
  import opened Config

  const KSQL_INTERNAL_TOPIC_PREFIX: string := "_confluent-ksql-"
  const APPLICATION_ID_CONFIG: string := "application.id"
  const CONSUMER_INTERCEPTOR_CLASSES: string := "consumer.interceptor.classes"
  const PRODUCER_INTERCEPTOR_CLASSES: string := "producer.interceptor.classes"
  const KSQL_PRODUCTION_ERROR_LOGGER: string := "ksql.production.error.logger"
  const CONSUMER_COLLECTOR: string := "io.confluent.ksql.metrics.ConsumerCollector"
  const PRODUCER_COLLECTOR: string := "io.confluent.ksql.metrics.ProducerCollector"

  // ---------------------------------------------------------------------------
  // Application ids
  // ---------------------------------------------------------------------------

  /** `getServiceId()`: the internal topic prefix followed by the configured service id. */
  function ServiceId(config: KsqlConfig): string
  {
    KSQL_INTERNAL_TOPIC_PREFIX + config.serviceId
  }

  function QueryApplicationId(serviceId: string, queryPrefix: string, queryId: string): string
  {
    serviceId + queryPrefix + queryId
  }

  /** `addTimeSuffix(original)` at wall-clock time `now`: `String.format("%s_%d", original, now)`. */
  function AddTimeSuffix(original: string, now: int): (r: string)
    ensures |r| > |original| + 1
    ensures r[..|original|] == original && r[|original|] == '_'
    ensures IsLongText(r[|original| + 1..]) && ParseLong(r[|original| + 1..]) == now
  {
    var r := original + "_" + FormatLong(now);
    assert r[|original| + 1..] == FormatLong(now);
    FormatLongRoundTrip(now);
    r
  }

  /** The application id of a transient query: transient prefix and a time suffix. */
  function TransientApplicationId(config: KsqlConfig, queryId: string, now: int): string
  {
    AddTimeSuffix(QueryApplicationId(ServiceId(config), config.transientQueryPrefix, queryId), now)
  }

  /** The application id of a persistent query: persistent prefix, no suffix. */
  function PersistentApplicationId(config: KsqlConfig, queryId: string): string
  {
    QueryApplicationId(ServiceId(config), config.persistentQueryPrefix, queryId)
  }

  /**
   * A persistent application id reads "_confluent-ksql-", the service id,
   * the persistent prefix and the query id; a transient one reads the same
   * with the transient prefix, then "_" and the time in decimal.
   */
  lemma ApplicationIdLayout(config: KsqlConfig, queryId: string, now: int)
    ensures PersistentApplicationId(config, queryId)
         == "_confluent-ksql-" + config.serviceId + config.persistentQueryPrefix + queryId
    ensures TransientApplicationId(config, queryId, now)
         == "_confluent-ksql-" + config.serviceId + config.transientQueryPrefix + queryId + "_" + FormatLong(now)
  {
  }

  /** Two transient ids of the same query differ whenever they were made at different times. */
  lemma TransientIdsDifferInTime(config: KsqlConfig, queryId: string, t1: int, t2: int)
    requires t1 != t2
    ensures TransientApplicationId(config, queryId, t1) != TransientApplicationId(config, queryId, t2)
  {
    var base := QueryApplicationId(ServiceId(config), config.transientQueryPrefix, queryId);
    var a := AddTimeSuffix(base, t1);
    var b := AddTimeSuffix(base, t2);
    assert ParseLong(a[|base| + 1..]) == t1 && ParseLong(b[|base| + 1..]) == t2;
  }

  /** Under one configuration, distinct persistent queries get distinct application ids. */
  lemma PersistentIdsDistinct(config: KsqlConfig, q1: string, q2: string)
    requires q1 != q2
    ensures PersistentApplicationId(config, q1) != PersistentApplicationId(config, q2)
  {
    var prefix := ServiceId(config) + config.persistentQueryPrefix;
    var a := PersistentApplicationId(config, q1);
    var b := PersistentApplicationId(config, q2);
    assert a == prefix + q1 && b == prefix + q2;
    assert a[|prefix|..] == q1 && b[|prefix|..] == q2;
  }

  // ---------------------------------------------------------------------------
  // Streams properties
  // ---------------------------------------------------------------------------

  /** The entries a list property holds before the new value is appended; None for an unusable type. */
  function ExistingEntries(props: map<string, Prop>, key: string): Option<seq<string>>
  {
    if key !in props then Some([])
    else match props[key]
      case Text(s) => Some(SplitCommaList(s))
      case TextList(items) => Some(items)
      case _ => None
  }

  /**
   * `updateListProperty(properties, key, value)`: the property becomes a
   * list holding its old entries (a string is split at commas) followed by
   * `value`; any other type of value is an error.
   */
  function UpdateListProperty(props: map<string, Prop>, key: string, value: string): (r: Result<map<string, Prop>, Exn>)
    ensures r.Success? <==> (key !in props || props[key].Text? || props[key].TextList?)
    ensures r.Failure? ==> r.error == Exn(Ksql, "Expecting list or string for property: " + key)
    ensures r.Success? ==> (
      && r.value.Keys == props.Keys + {key}
      && (forall k :: k in props && k != key ==> r.value[k] == props[k])
      && r.value[key] == TextList(ExistingEntries(props, key).value + [value]))
  {
    var existing := ExistingEntries(props, key);
    if existing.None? then Failure(Exn(Ksql, "Expecting list or string for property: " + key))
    else Success(props[key := TextList(existing.value + [value])])
  }

  /** A missing property becomes the one-element list holding the value. */
  lemma UpdateMissingProperty(props: map<string, Prop>, key: string, value: string)
    requires key !in props
    ensures UpdateListProperty(props, key, value) == Success(props[key := TextList([value])])
  {
    assert [] + [value] == [value];
  }

  /**
   * A comma-separated string of class names (however the commas are padded)
   * becomes the list of those names with the value appended.
   */
  lemma UpdateCommaSeparatedProperty(props: map<string, Prop>, key: string, names: seq<string>, value: string)
    requires |names| >= 1
    requires forall k :: 0 <= k < |names| ==> IsCleanToken(names[k])
    requires |names| == 1 || names[|names| - 1] != ""
    requires key in props && props[key] == Text(JoinCommas(names))
    ensures UpdateListProperty(props, key, value) == Success(props[key := TextList(names + [value])])
  {
    SplitJoinRoundTrip(names);
  }

  /** An empty string is not an empty list: the result keeps an empty class name before the value. */
  lemma UpdateEmptyStringProperty(props: map<string, Prop>, key: string, value: string)
    requires key in props && props[key] == Text("")
    ensures UpdateListProperty(props, key, value) == Success(props[key := TextList(["", value])])
  {
    assert ',' !in "";
    assert SplitCommaList("") + [value] == ["", value];
  }

  /** Both interceptor properties are absent, a string or a list, so that they can be extended. */
  predicate InterceptorsUsable(config: KsqlConfig)
  {
    && ExistingEntries(config.streamConfigProps, CONSUMER_INTERCEPTOR_CLASSES).Some?
    && ExistingEntries(config.streamConfigProps, PRODUCER_INTERCEPTOR_CLASSES).Some?
  }

  /**
   * `buildStreamsProperties(applicationId, queryId)`: a copy of the engine's
   * streams properties with the application id and the production-error
   * logger set, and the metric collectors appended to the consumer and
   * producer interceptor lists.
   */
  function BuildStreamsProperties(config: KsqlConfig, applicationId: string, queryId: string): (r: Result<map<string, Prop>, Exn>)
    ensures r.Success? <==> InterceptorsUsable(config)
    ensures r.Failure? ==> r.error.cls == Ksql
    ensures r.Success? ==> (
      && r.value.Keys == config.streamConfigProps.Keys
           + {APPLICATION_ID_CONFIG, KSQL_PRODUCTION_ERROR_LOGGER, CONSUMER_INTERCEPTOR_CLASSES, PRODUCER_INTERCEPTOR_CLASSES}
      && r.value[APPLICATION_ID_CONFIG] == Text(applicationId)
      && r.value[KSQL_PRODUCTION_ERROR_LOGGER] == ProcessingLogger(queryId)
      && r.value[CONSUMER_INTERCEPTOR_CLASSES]
           == TextList(ExistingEntries(config.streamConfigProps, CONSUMER_INTERCEPTOR_CLASSES).value + [CONSUMER_COLLECTOR])
      && r.value[PRODUCER_INTERCEPTOR_CLASSES]
           == TextList(ExistingEntries(config.streamConfigProps, PRODUCER_INTERCEPTOR_CLASSES).value + [PRODUCER_COLLECTOR])
      && forall k :: k in config.streamConfigProps && k !in
           {APPLICATION_ID_CONFIG, KSQL_PRODUCTION_ERROR_LOGGER, CONSUMER_INTERCEPTOR_CLASSES, PRODUCER_INTERCEPTOR_CLASSES}
           ==> r.value[k] == config.streamConfigProps[k])
  {
    PropertyNamesDistinct();
    var withIds := WithIds(config.streamConfigProps, applicationId, queryId);
    var withConsumer := UpdateListProperty(withIds, CONSUMER_INTERCEPTOR_CLASSES, CONSUMER_COLLECTOR);
    if withConsumer.Failure? then Failure(withConsumer.error)
    else
      assert ExistingEntries(withConsumer.value, PRODUCER_INTERCEPTOR_CLASSES)
          == ExistingEntries(withIds, PRODUCER_INTERCEPTOR_CLASSES);
      UpdateListProperty(withConsumer.value, PRODUCER_INTERCEPTOR_CLASSES, PRODUCER_COLLECTOR)
  }

  /** The four property names `buildStreamsProperties` writes are different keys. */
  lemma PropertyNamesDistinct()
    ensures APPLICATION_ID_CONFIG != KSQL_PRODUCTION_ERROR_LOGGER
    ensures APPLICATION_ID_CONFIG != CONSUMER_INTERCEPTOR_CLASSES && APPLICATION_ID_CONFIG != PRODUCER_INTERCEPTOR_CLASSES
    ensures KSQL_PRODUCTION_ERROR_LOGGER != CONSUMER_INTERCEPTOR_CLASSES && KSQL_PRODUCTION_ERROR_LOGGER != PRODUCER_INTERCEPTOR_CLASSES
    ensures CONSUMER_INTERCEPTOR_CLASSES != PRODUCER_INTERCEPTOR_CLASSES
  {
    assert APPLICATION_ID_CONFIG[0] == 'a' && KSQL_PRODUCTION_ERROR_LOGGER[0] == 'k';
    assert CONSUMER_INTERCEPTOR_CLASSES[0] == 'c' && PRODUCER_INTERCEPTOR_CLASSES[0] == 'p';
  }

  /** The first two puts of `buildStreamsProperties`: the application id and the production-error logger. */
  function WithIds(props: map<string, Prop>, applicationId: string, queryId: string): (r: map<string, Prop>)
    ensures r.Keys == props.Keys + {APPLICATION_ID_CONFIG, KSQL_PRODUCTION_ERROR_LOGGER}
    ensures r[APPLICATION_ID_CONFIG] == Text(applicationId)
    ensures r[KSQL_PRODUCTION_ERROR_LOGGER] == ProcessingLogger(queryId)
    ensures forall k :: k in props && k != APPLICATION_ID_CONFIG && k != KSQL_PRODUCTION_ERROR_LOGGER ==> r[k] == props[k]
    ensures ExistingEntries(r, CONSUMER_INTERCEPTOR_CLASSES) == ExistingEntries(props, CONSUMER_INTERCEPTOR_CLASSES)
    ensures ExistingEntries(r, PRODUCER_INTERCEPTOR_CLASSES) == ExistingEntries(props, PRODUCER_INTERCEPTOR_CLASSES)
  {
    PropertyNamesDistinct();
    props[APPLICATION_ID_CONFIG := Text(applicationId)][KSQL_PRODUCTION_ERROR_LOGGER := ProcessingLogger(queryId)]
  }

  // ---------------------------------------------------------------------------
  // Transient queries and build results
  // ---------------------------------------------------------------------------

  /** `buildTransientQuerySchema(fullSchema)`: the value columns only. */
  function BuildTransientQuerySchema(fullSchema: LogicalSchema): (r: LogicalSchema)
    ensures !r.implicitColumns && |r.key| == 0
    ensures r.value == fullSchema.value
  {
    BuildLogical(ValueColumns(NoImplicitColumns(NewBuilder), fullSchema.value))
  }

  /** The stream a transient query's queue reads, by what the plan built. */
  function TransientQueueSource(built: BuildResult): (r: Result<KStream, Exn>)
    ensures built.StreamResult? ==> r == Success(built.streamHolder.stream)
    ensures built.TableResult? ==> r == Success(TableChanges(built.tableHolder.table))
    ensures !built.StreamResult? && !built.TableResult? ==>
              r == Failure(Exn(IllegalState, "Unexpected type built from exection plan"))
  {
    match built
    case StreamResult(h) => Success(h.stream)
    case TableResult(h) => Success(TableChanges(h.table))
    case _ => Failure(Exn(IllegalState, "Unexpected type built from exection plan"))
  }

  /** `getMaterializationInfo(result)`: only a table holder with a materialization builder has one. */
  function GetMaterializationInfo(built: BuildResult): (r: Option<MaterializationInfo>)
    ensures r.Some? <==> built.TableResult? && built.tableHolder.materializationBuilder.Some?
    ensures r.Some? ==> r.value.builtFrom == built.tableHolder.materializationBuilder.value
  {
    if built.TableResult? && built.tableHolder.materializationBuilder.Some?
    then Some(MaterializationInfo(built.tableHolder.materializationBuilder.value))
    else None
  }

  /** What `TransientQueryMetadata` is built from, minus the runtime objects. */
  datatype TransientQuery = TransientQuery(
    applicationId: string, schema: LogicalSchema, streamsProperties: map<string, Prop>,
    source: KStream, limit: Option<int>)

  /** What `PersistentQueryMetadata` is built from, minus the runtime objects. */
  datatype PersistentQuery = PersistentQuery(
    queryId: string, applicationId: string, sinkName: string, streamsProperties: map<string, Prop>,
    materialization: Option<MaterializationInfo>)

  /**
   * `buildTransientQuery`: the queue source comes first (an unexpected build
   * result fails before anything else), then the timed application id, the
   * streams properties and the value-only schema.
   */
  function BuildTransientQuery(config: KsqlConfig, queryId: string, built: BuildResult, schema: LogicalSchema,
                               limit: Option<int>, now: int): (r: Result<TransientQuery, Exn>)
    ensures TransientQueueSource(built).Failure? ==> r == Failure(TransientQueueSource(built).error)
    ensures r.Success? <==> TransientQueueSource(built).Success? && InterceptorsUsable(config)
    ensures r.Success? ==> (
      && r.value.applicationId == TransientApplicationId(config, queryId, now)
      && APPLICATION_ID_CONFIG in r.value.streamsProperties
      && r.value.streamsProperties[APPLICATION_ID_CONFIG] == Text(r.value.applicationId)
      && r.value.schema == BuildTransientQuerySchema(schema)
      && r.value.source == TransientQueueSource(built).value
      && r.value.limit == limit)
  {
    var source := TransientQueueSource(built);
    if source.Failure? then Failure(source.error)
    else
      var applicationId := TransientApplicationId(config, queryId, now);
      var props := BuildStreamsProperties(config, applicationId, queryId);
      if props.Failure? then Failure(props.error)
      else Success(TransientQuery(applicationId, BuildTransientQuerySchema(schema), props.value, source.value, limit))
  }

  /** `buildQuery`: a persistent query, whose materialization comes from what its plan built. */
  function BuildQuery(config: KsqlConfig, queryId: string, sinkName: string, built: BuildResult): (r: Result<PersistentQuery, Exn>)
    ensures r.Success? <==> InterceptorsUsable(config)
    ensures r.Failure? ==> r.error.cls == Ksql
    ensures r.Success? ==> (
      && r.value.applicationId == PersistentApplicationId(config, queryId)
      && APPLICATION_ID_CONFIG in r.value.streamsProperties
      && r.value.streamsProperties[APPLICATION_ID_CONFIG] == Text(r.value.applicationId)
      && r.value.sinkName == sinkName && r.value.queryId == queryId
      && (r.value.materialization.Some? <==> built.TableResult? && built.tableHolder.materializationBuilder.Some?))
  {
    var applicationId := PersistentApplicationId(config, queryId);
    var props := BuildStreamsProperties(config, applicationId, queryId);
    if props.Failure? then Failure(props.error)
    else Success(PersistentQuery(queryId, applicationId, sinkName, props.value, GetMaterializationInfo(built)))
  }
}
