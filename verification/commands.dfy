/**
 * The command log entries the statement executor consumes, the status it
 * records for each, and the part of the engine it observes: the metastore's
 * sink-to-query index and the persistent queries with their started flag.
 */
module Commands {
  import opened Wrappers
  import opened JavaLang
  import opened Config
  import Ast

  // ---------------------------------------------------------------------------
  // Command ids and statuses
  // ---------------------------------------------------------------------------

  datatype CommandType = TopicCommand | StreamCommand | TableCommand | TerminateCommand

  datatype CommandAction = Create | Drop | Execute

  /** `CommandId`: the kind of entity, its name, and what is done to it. */
  datatype CommandId = CommandId(commandType: CommandType, entity: string, action: CommandAction)

  /** `CommandStatus.Status`: QUEUED, PARSING, EXECUTING, SUCCESS, ERROR, TERMINATED. */
  datatype Status = Queued | Parsing | Executing | Succeeded | Errored | Terminated

  datatype CommandStatus = CommandStatus(status: Status, message: string)

  /** A command as written to the command topic. */
  datatype Command = Command(
    statement: string,
    overwriteProperties: map<string, Prop>,
    originalProperties: map<string, Prop>,
    useOffsetAsQueryId: bool,
    preVersion5: bool)

  datatype QueuedCommand = QueuedCommand(commandId: CommandId, command: Command, offset: int)

  // ---------------------------------------------------------------------------
  // Statements
  // ---------------------------------------------------------------------------

  /** The statement kinds the executor distinguishes. */
  datatype Statement =
    | DdlStatement(text: string)                  // an ExecutableDdlStatement
    | CreateAsSelectStatement(node: Ast.CreateAsSelect)
    | InsertInto(target: string)
    | TerminateQuery(queryId: string)
    | RunScript
    | OtherStatement(className: string)           // any other statement class

  /** `PreparedStatement`: the statement text and its parsed form. */
  datatype PreparedStatement = PreparedStatement(text: string, statement: Statement)

  /** `ConfiguredStatement`: a prepared statement with its property overrides and configuration. */
  datatype ConfiguredStatement = ConfiguredStatement(
    prepared: PreparedStatement, overrides: map<string, Prop>, config: KsqlConfig)

  // ---------------------------------------------------------------------------
  // The engine, as the executor sees it
  // ---------------------------------------------------------------------------

  datatype PersistentQuery = PersistentQuery(sink: string, started: bool)

  /**
   * `metaStore` maps each source to the ids of the queries writing to it
   * (`getQueriesWithSink`); `queries` holds the persistent queries by id;
   * `generatorOffset` is the offset the query-id generator was last seeded with.
   */
  datatype Engine = Engine(
    metaStore: map<string, seq<string>>,
    queries: map<string, PersistentQuery>,
    generatorOffset: Option<int>)

  /** What `KsqlEngine.execute` returns about a query, if it built one. */
  datatype QueryMetadata =
    | PersistentQueryMetadata(queryId: string)
    | OtherQueryMetadata(queryId: string, canonicalName: string)

  datatype ExecuteResult = ExecuteResult(query: Option<QueryMetadata>, commandResult: Option<string>)

  /** An effect the executor has on the engine, in the order it happens. */
  datatype Effect =
    | QueryClosed(queryId: string)
    | QueryStarted(queryId: string)
    | CapacityChecked(extra: int, running: int, limit: int, exceeded: bool)
    | GeneratorActivated(offset: int)
    | EngineExecuted(configured: ConfiguredStatement, built: Option<QueryMetadata>) // `built`: the query the execution returned, if it succeeded with one

  /** An engine after some effects, and the effects that led to it. */
  datatype Change = Change(engine: Engine, effects: seq<Effect>)

  /** `QueryCapacityUtil.exceedsPersistentQueryCapacity`: running persistent queries plus the new ones exceed the limit. */
  predicate ExceedsCapacity(engine: Engine, config: KsqlConfig, extra: int)
  {
    |engine.queries| + extra > config.activePersistentQueryLimit
  }

  /** `QueryMetadata.close()` on a persistent query: the engine drops it. */
  function CloseQuery(engine: Engine, queryId: string): (r: Change)
    ensures r.engine.queries == engine.queries - {queryId}
    ensures r.engine.metaStore == engine.metaStore && r.engine.generatorOffset == engine.generatorOffset
    ensures r.effects == [QueryClosed(queryId)]
  {
    Change(engine.(queries := engine.queries - {queryId}), [QueryClosed(queryId)])
  }

  /** `PersistentQueryMetadata.start()`. */
  function StartQuery(engine: Engine, queryId: string): (r: Change)
    ensures r.engine.queries.Keys == engine.queries.Keys
    ensures queryId in r.engine.queries ==> r.engine.queries[queryId].started
    ensures forall k :: k in engine.queries && k != queryId ==> r.engine.queries[k] == engine.queries[k]
    ensures queryId in engine.queries ==> r.engine.queries[queryId].sink == engine.queries[queryId].sink
    ensures r.engine.metaStore == engine.metaStore && r.engine.generatorOffset == engine.generatorOffset
    ensures r.effects == [QueryStarted(queryId)]
  {
    var queries :=
      if queryId in engine.queries
      then engine.queries[queryId := engine.queries[queryId].(started := true)]
      else engine.queries;
    Change(engine.(queries := queries), [QueryStarted(queryId)])
  }

  /** The persistent queries left once the given ids are closed. */
  function Without(queries: map<string, PersistentQuery>, ids: seq<string>): map<string, PersistentQuery>
  {
    map k | k in queries && k !in ids :: queries[k]
  }

  /**
   * Closes, in order, each id that still names a persistent query; an id
   * with no query (`getPersistentQuery` is empty) is skipped.
   */
  function CloseAll(engine: Engine, ids: seq<string>): (r: Change)
    ensures r.engine.queries == Without(engine.queries, ids)
    ensures r.engine.metaStore == engine.metaStore && r.engine.generatorOffset == engine.generatorOffset
    ensures |r.effects| <= |ids|
    ensures forall i :: 0 <= i < |r.effects| ==>
              r.effects[i].QueryClosed? && r.effects[i].queryId in ids && r.effects[i].queryId in engine.queries
    ensures forall k :: k in ids && k in engine.queries ==> QueryClosed(k) in r.effects
    decreases |ids|
  {
    if |ids| == 0 then
      assert Without(engine.queries, ids) == engine.queries;
      Change(engine, [])
    else
      var first := if ids[0] in engine.queries then CloseQuery(engine, ids[0]) else Change(engine, []);
      var rest := CloseAll(first.engine, ids[1..]);
      assert forall k :: k in ids <==> k == ids[0] || k in ids[1..];
      assert Without(first.engine.queries, ids[1..]) == Without(engine.queries, ids);
      Change(rest.engine, first.effects + rest.effects)
  }

  /** Starts, in order, every persistent query among `queries`; other query kinds are skipped. */
  function StartAll(engine: Engine, queries: seq<QueryMetadata>): (r: Change)
    ensures r.engine.queries.Keys == engine.queries.Keys
    ensures r.engine.metaStore == engine.metaStore && r.engine.generatorOffset == engine.generatorOffset
    ensures forall i :: 0 <= i < |r.effects| ==>
              r.effects[i].QueryStarted? && PersistentQueryMetadata(r.effects[i].queryId) in queries
    ensures forall q :: q in queries && q.PersistentQueryMetadata? ==> QueryStarted(q.queryId) in r.effects
    ensures forall q :: q in queries && q.PersistentQueryMetadata? && q.queryId in r.engine.queries ==>
              r.engine.queries[q.queryId].started
    ensures forall k :: k in engine.queries && engine.queries[k].started ==> r.engine.queries[k].started
    decreases |queries|
  {
    if |queries| == 0 then Change(engine, [])
    else
      var first := if queries[0].PersistentQueryMetadata? then StartQuery(engine, queries[0].queryId) else Change(engine, []);
      var rest := StartAll(first.engine, queries[1..]);
      assert forall q :: q in queries <==> q == queries[0] || q in queries[1..];
      Change(rest.engine, first.effects + rest.effects)
  }

  /**
   * `queries.forEach(QueryMetadata::close)`: every query of the list is
   * closed, in order; closing a persistent query also drops it from the
   * engine, closing any other kind leaves the persistent queries alone.
   */
  function CloseEach(engine: Engine, queries: seq<QueryMetadata>): (r: Change)
    ensures forall k :: k in r.engine.queries <==> k in engine.queries && PersistentQueryMetadata(k) !in queries
    ensures forall k :: k in r.engine.queries ==> r.engine.queries[k] == engine.queries[k]
    ensures r.engine.metaStore == engine.metaStore && r.engine.generatorOffset == engine.generatorOffset
    ensures |r.effects| == |queries|
    ensures forall i :: 0 <= i < |queries| ==> r.effects[i] == QueryClosed(queries[i].queryId)
    decreases |queries|
  {
    if |queries| == 0 then Change(engine, [])
    else
      var q := queries[0];
      var first := if q.PersistentQueryMetadata? then CloseQuery(engine, q.queryId) else Change(engine, [QueryClosed(q.queryId)]);
      var rest := CloseEach(first.engine, queries[1..]);
      assert forall m :: m in queries <==> m == q || m in queries[1..];
      Change(rest.engine, first.effects + rest.effects)
  }
}
