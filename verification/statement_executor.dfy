/**
 * The interactive statement executor: it applies one command from the
 * command log at a time, recording PARSING, EXECUTING and a final SUCCESS or
 * ERROR status for it, and drives the engine through the statement's
 * effects: the capacity check, seeding the query-id generator, executing,
 * starting persistent queries (in EXECUTE mode only), terminating a query,
 * the legacy DROP that closes the queries writing to a dropped source, and
 * the deprecated RUN SCRIPT.
 *
 * Parsing, preparing and executing statements, merging configurations and
 * the text of the capacity error are collaborators, passed in as functions.
 * Java exceptions are `Exn` values: a `Ksql` one is caught and recorded as an
 * ERROR status; any other escapes to the caller.
 */
module StatementExecution {
  import opened Wrappers
  import opened JavaLang
  import opened Config
  import opened Commands
  import Ast

  /** Replaying the log at start-up (`handleRestore`) or running a new command (`handleStatement`). */
  datatype Mode = RestoreMode | ExecuteMode

  /**
   * The collaborators the executor calls: the statement parser (which
   * reads the engine's metastore as the legacy drop left it), the
   * engine's script parser, `prepare` and `execute`, the config merge
   * (`overrideBreakingConfigsWithOriginalValues`), the message of
   * `throwTooManyActivePersistentQueriesException` (running count, limit,
   * statement text) and `ExceptionUtil.stackTraceToString`.
   */
  datatype Collaborators = Collaborators(
    parseSingle: (Engine, string) -> Result<PreparedStatement, Exn>,
    parseScript: string -> Result<seq<string>, Exn>,
    prepare: (Engine, string) -> Result<PreparedStatement, Exn>,
    execute: (Engine, ConfiguredStatement) -> Result<(Engine, ExecuteResult), Exn>,
    mergeConfig: (KsqlConfig, map<string, Prop>) -> KsqlConfig,
    tooManyQueries: (int, int, string) -> string,
    stackTrace: Exn -> string)

  /** One observable event: a status written to the store, or an effect on the engine. */
  datatype Event =
    | StatusPut(commandId: CommandId, status: CommandStatus, isFinal: bool)
    | EngineEffect(effect: Effect)

  /** The executor: its configuration once `configure` ran, the status store, the engine, and all events so far. */
  datatype Executor = Executor(
    config: Option<KsqlConfig>,
    statuses: map<CommandId, CommandStatus>,
    engine: Engine,
    trace: seq<Event>)

  /** The engine after part of a statement ran, the effects so far, and the value or exception it ended with. */
  datatype Step<T> = Step(engine: Engine, effects: seq<Effect>, result: Result<T, Exn>)

  /** The executor after a command, and the exception that escaped, if any. */
  datatype Outcome = Outcome(state: Executor, escaped: Option<Exn>)

  /** `KsqlConstants.LEGACY_RUN_SCRIPT_STATEMENTS_CONTENT`. */
  const LEGACY_RUN_SCRIPT_STATEMENTS_CONTENT: string := "ksql.run.script.statements"
  const PERSISTENT_QUERY_METADATA_CLASS: string := "io.confluent.ksql.util.PersistentQueryMetadata"
  const PREPARED_STATEMENT_CLASS: string := "io.confluent.ksql.parser.KsqlParser$PreparedStatement"
  const UNEXPECTED_STATEMENT_PREFIX: string := "Unexpected statement type: "

  const PARSING_STATUS: CommandStatus := CommandStatus(Parsing, "Parsing statement")
  const EXECUTING_STATUS: CommandStatus := CommandStatus(Executing, "Executing statement")

  // ---------------------------------------------------------------------------
  // Configuration and the status store
  // ---------------------------------------------------------------------------

  /** A new executor: not configured, no statuses, no events. */
  function NewExecutor(engine: Engine): Executor
  {
    Executor(None, map[], engine, [])
  }

  /** `configure(config)`: accepted only when the streams properties name the application server. */
  function Configure(x: Executor, config: KsqlConfig): (r: Result<Executor, Exn>)
    ensures r.Success? <==> APPLICATION_SERVER_CONFIG in config.streamConfigProps
    ensures r.Failure? ==> r.error == Exn(IllegalArgument, "Need KS application server set")
    ensures r.Success? ==> r.value.config == Some(config)
    ensures r.Success? ==> r.value.statuses == x.statuses && r.value.engine == x.engine && r.value.trace == x.trace
  {
    if APPLICATION_SERVER_CONFIG !in config.streamConfigProps
    then Failure(Exn(IllegalArgument, "Need KS application server set"))
    else Success(x.(config := Some(config)))
  }

  /** `getStatuses()`: a copy of the status store. */
  function GetStatuses(x: Executor): (r: map<CommandId, CommandStatus>)
    ensures r.Keys == x.statuses.Keys
    ensures forall id :: id in r ==> r[id] == x.statuses[id]
  {
    x.statuses
  }

  /** `getStatus(id)`: the status of a command, if it has one. */
  function GetStatus(x: Executor, id: CommandId): (r: Option<CommandStatus>)
    ensures r.Some? <==> id in x.statuses
    ensures r.Some? ==> r.value == x.statuses[id]
  {
    if id in x.statuses then Some(x.statuses[id]) else None
  }

  /** `putStatus` / `putFinalStatus`: store the status and record the write. */
  function PutStatus(x: Executor, id: CommandId, status: CommandStatus, isFinal: bool): (r: Executor)
    ensures r.statuses == x.statuses[id := status]
    ensures r.trace == x.trace + [StatusPut(id, status, isFinal)]
    ensures r.config == x.config && r.engine == x.engine
  {
    x.(statuses := x.statuses[id := status], trace := x.trace + [StatusPut(id, status, isFinal)])
  }

  /** Engine effects as events. */
  function Lift(effects: seq<Effect>): (r: seq<Event>)
    ensures |r| == |effects|
    ensures forall i :: 0 <= i < |r| ==> r[i] == EngineEffect(effects[i])
  {
    seq(|effects|, i requires 0 <= i < |effects| => EngineEffect(effects[i]))
  }

  /** The executor once the engine has gone through some effects. */
  function Apply(x: Executor, engine: Engine, effects: seq<Effect>): (r: Executor)
    ensures r.trace == x.trace + Lift(effects)
    ensures r.engine == engine && r.config == x.config && r.statuses == x.statuses
  {
    x.(engine := engine, trace := x.trace + Lift(effects))
  }

  /** The kinds of the statuses written, in order, among some events. */
  function StatusKinds(events: seq<Event>): seq<Status>
  {
    if |events| == 0 then [] else StatusKindOf(events[0]) + StatusKinds(events[1..])
  }

  /** The kind of status an event writes, if it writes one. */
  function StatusKindOf(e: Event): seq<Status>
  {
    if e.StatusPut? then [e.status.status] else []
  }

  lemma {:induction false} StatusKindsAppend(a: seq<Event>, b: seq<Event>)
    ensures StatusKinds(a + b) == StatusKinds(a) + StatusKinds(b)
    decreases |a|
  {
    if |a| == 0 {
      assert a + b == b;
    } else {
      var ab := a + b;
      assert ab[0] == a[0];
      assert ab[1..] == a[1..] + b;
      StatusKindsAppend(a[1..], b);
      calc {
        StatusKinds(ab);
        StatusKindOf(a[0]) + StatusKinds(a[1..] + b);
        StatusKindOf(a[0]) + (StatusKinds(a[1..]) + StatusKinds(b));
        (StatusKindOf(a[0]) + StatusKinds(a[1..])) + StatusKinds(b);
      }
    }
  }

  /** Engine effects write no status. */
  lemma {:induction false} LiftWritesNoStatus(effects: seq<Effect>)
    ensures StatusKinds(Lift(effects)) == []
    decreases |effects|
  {
    if |effects| > 0 {
      assert Lift(effects)[1..] == Lift(effects[1..]);
      LiftWritesNoStatus(effects[1..]);
    }
  }

  /** A status write, engine effects, and another status write: the two statuses, in order. */
  lemma PutsAroundEffects(first: Event, effects: seq<Effect>, last: Event)
    requires first.StatusPut? && last.StatusPut?
    ensures StatusKinds([first] + Lift(effects)) == [first.status.status]
    ensures StatusKinds([first] + Lift(effects) + [last]) == [first.status.status, last.status.status]
  {
    LiftWritesNoStatus(effects);
    StatusKindsAppend([first], Lift(effects));
    StatusKindsAppend([first] + Lift(effects), [last]);
    assert StatusKinds([last]) == [last.status.status] by {
      assert [last][1..] == [];
    }
    assert StatusKinds([first]) == [first.status.status] by {
      assert [first][1..] == [];
    }
  }

  // ---------------------------------------------------------------------------
  // Legacy DROP
  // ---------------------------------------------------------------------------

  /** A DROP STREAM or DROP TABLE written before version 5, of a source the metastore knows. */
  predicate LegacyDropApplies(engine: Engine, id: CommandId, command: Command)
  {
    && command.preVersion5
    && id.action == Drop
    && (id.commandType == StreamCommand || id.commandType == TableCommand)
    && id.entity in engine.metaStore
  }

  /**
   * `maybeTerminateQueryForLegacyDropCommand`: for a legacy drop, close
   * every persistent query that writes to the dropped source; otherwise do
   * nothing.
   */
  function LegacyDrop(engine: Engine, id: CommandId, command: Command): (r: Change)
    ensures LegacyDropApplies(engine, id, command) ==>
              r.engine.queries == Without(engine.queries, engine.metaStore[id.entity])
    ensures !LegacyDropApplies(engine, id, command) ==> r == Change(engine, [])
    ensures r.engine.metaStore == engine.metaStore && r.engine.generatorOffset == engine.generatorOffset
    ensures forall i :: 0 <= i < |r.effects| ==> r.effects[i].QueryClosed? && r.effects[i].queryId in engine.queries
  {
    if !command.preVersion5 || id.action != Drop
       || !(id.commandType == StreamCommand || id.commandType == TableCommand) then
      Change(engine, [])
    else if id.entity !in engine.metaStore then
      Change(engine, [])
    else
      CloseAll(engine, engine.metaStore[id.entity])
  }

  /** The metastore's sink index lists exactly the queries writing to each source. */
  predicate SinkIndexConsistent(engine: Engine)
  {
    forall e, k :: e in engine.metaStore && k in engine.queries ==>
      (k in engine.metaStore[e] <==> engine.queries[k].sink == e)
  }

  /**
   * A legacy drop leaves no query writing to the dropped source and keeps
   * every query writing elsewhere; any other command keeps every query.
   */
  lemma LegacyDropClosesExactlySinkQueries(engine: Engine, id: CommandId, command: Command)
    requires SinkIndexConsistent(engine)
    ensures var r := LegacyDrop(engine, id, command);
            && r.engine.queries.Keys <= engine.queries.Keys
            && (forall k :: k in engine.queries ==>
                  (k in r.engine.queries <==>
                     !(LegacyDropApplies(engine, id, command) && engine.queries[k].sink == id.entity)))
            && forall k :: k in r.engine.queries ==> r.engine.queries[k] == engine.queries[k]
  {
  }

  // ---------------------------------------------------------------------------
  // startQuery, terminateQuery, DDL
  // ---------------------------------------------------------------------------

  /** The engine once the query-id generator has (or has not) been seeded from the command's offset. */
  function Seeded(engine: Engine, command: Command, offset: int): (r: Engine)
    ensures r.queries == engine.queries && r.metaStore == engine.metaStore
    ensures r.generatorOffset == if command.useOffsetAsQueryId then Some(offset) else engine.generatorOffset
  {
    if command.useOffsetAsQueryId then engine.(generatorOffset := Some(offset)) else engine
  }

  /** The trace entry of one execution: the statement, and the query the execution built (none when it failed). */
  function Executed(configured: ConfiguredStatement, outcome: Result<(Engine, ExecuteResult), Exn>): Effect
  {
    EngineExecuted(configured, if outcome.Success? then outcome.value.1.query else None)
  }

  /** `startQuery`: the CREATE AS SELECT and INSERT INTO path; the result is the new query's id. */
  function StartPersistentQuery(engine: Engine, c: Collaborators, config: KsqlConfig, st: PreparedStatement,
                                command: Command, mode: Mode, offset: int): (r: Step<string>)
    ensures var merged := c.mergeConfig(config, command.originalProperties);
            && |r.effects| >= 1
            && r.effects[0] == CapacityChecked(1, |engine.queries|, merged.activePersistentQueryLimit,
                                               ExceedsCapacity(engine, merged, 1))
    // Over capacity: nothing is seeded, executed or created.
    ensures var merged := c.mergeConfig(config, command.originalProperties);
            ExceedsCapacity(engine, merged, 1) ==>
              && r.engine == engine && |r.effects| == 1
              && r.result == Failure(Exn(Ksql, c.tooManyQueries(|engine.queries|, merged.activePersistentQueryLimit, st.text)))
    // Otherwise the generator is seeded (when the command asks) and only then the statement executed, with the merged config.
    ensures var merged := c.mergeConfig(config, command.originalProperties);
            var configured := ConfiguredStatement(st, command.overwriteProperties, merged);
            !ExceedsCapacity(engine, merged, 1) ==>
              && |r.effects| >= (if command.useOffsetAsQueryId then 3 else 2)
              && (command.useOffsetAsQueryId ==>
                    && r.effects[1] == GeneratorActivated(offset)
                    && r.effects[2] == Executed(configured, c.execute(Seeded(engine, command, offset), configured)))
              && (!command.useOffsetAsQueryId ==>
                    r.effects[1] == Executed(configured, c.execute(Seeded(engine, command, offset), configured)))
    ensures mode == RestoreMode ==> forall i :: 0 <= i < |r.effects| ==> !r.effects[i].QueryStarted?
    ensures forall i :: 0 <= i < |r.effects| ==> !r.effects[i].QueryClosed?
    ensures r.result.Success? ==>
              var merged := c.mergeConfig(config, command.originalProperties);
              var executed := c.execute(Seeded(engine, command, offset), ConfiguredStatement(st, command.overwriteProperties, merged));
              && executed.Success?
              && executed.value.1.query == Some(PersistentQueryMetadata(r.result.value))
              && (mode == ExecuteMode ==> r.effects[|r.effects| - 1] == QueryStarted(r.result.value))
    ensures r.result.Failure? && r.result.error.cls != Ksql ==>
              r.result.error == Exn(IllegalState, "Statement did not return a query")
              || c.execute(Seeded(engine, command, offset),
                           ConfiguredStatement(st, command.overwriteProperties, c.mergeConfig(config, command.originalProperties)))
                 == Failure(r.result.error)
  {
    var merged := c.mergeConfig(config, command.originalProperties);
    var running := |engine.queries|;
    var exceeded := ExceedsCapacity(engine, merged, 1);
    var check := CapacityChecked(1, running, merged.activePersistentQueryLimit, exceeded);
    if exceeded then
      Step(engine, [check], Failure(Exn(Ksql, c.tooManyQueries(running, merged.activePersistentQueryLimit, st.text))))
    else
      var configured := ConfiguredStatement(st, command.overwriteProperties, merged);
      var seeded := Seeded(engine, command, offset);
      var seeding := if command.useOffsetAsQueryId then [GeneratorActivated(offset)] else [];
      var outcome := c.execute(seeded, configured);
      var before := [check] + seeding + [Executed(configured, outcome)];
      match outcome
      case Failure(e) => Step(seeded, before, Failure(e))
      case Success(executed) =>
        var built := executed.0;
        var query := executed.1.query;
        if query.None? then
          Step(built, before, Failure(Exn(IllegalState, "Statement did not return a query")))
        else if query.value.OtherQueryMetadata? then
          Step(built, before, Failure(Exn(Ksql, "Unexpected query metadata type: " + query.value.canonicalName
                                                 + "; was expecting " + PERSISTENT_QUERY_METADATA_CLASS)))
        else if mode == ExecuteMode then
          var started := StartQuery(built, query.value.queryId);
          Step(started.engine, before + started.effects, Success(query.value.queryId))
        else
          Step(built, before, Success(query.value.queryId))
  }

  /** `terminateQuery`: close the persistent query with the id, which must exist. */
  function Terminate(engine: Engine, queryId: string): (r: Step<string>)
    ensures r.result.Success? <==> queryId in engine.queries
    ensures r.result.Success? ==>
              && r.result.value == "Query terminated."
              && r.engine.queries == engine.queries - {queryId}
              && r.effects == [QueryClosed(queryId)]
    ensures r.result.Failure? ==>
              && r.result.error == Exn(Ksql, "No running query with id " + queryId + " was found")
              && r.engine == engine && r.effects == []
    ensures r.engine.metaStore == engine.metaStore && r.engine.generatorOffset == engine.generatorOffset
  {
    if queryId in engine.queries then
      var closed := CloseQuery(engine, queryId);
      Step(closed.engine, closed.effects, Success("Query terminated."))
    else
      Step(engine, [], Failure(Exn(Ksql, "No running query with id " + queryId + " was found")))
  }

  /** `executeDdlStatement`: execute with the merged config; the engine's command result is the message. */
  function ExecuteDdl(engine: Engine, c: Collaborators, config: KsqlConfig, st: PreparedStatement, command: Command): (r: Step<string>)
    ensures var configured := ConfiguredStatement(st, command.overwriteProperties,
                                                  c.mergeConfig(config, command.originalProperties));
            r.effects == [Executed(configured, c.execute(engine, configured))]
    ensures var executed := c.execute(engine, r.effects[0].configured);
            && (executed.Failure? ==> r.result == Failure(executed.error) && r.engine == engine)
            && (executed.Success? ==> r.engine == executed.value.0)
            && (executed.Success? && executed.value.1.commandResult.None? ==>
                  r.result == Failure(Exn(NoSuchElement, "No value present")))
            && (executed.Success? && executed.value.1.commandResult.Some? ==>
                  r.result == Success(executed.value.1.commandResult.value))
  {
    var configured := ConfiguredStatement(st, command.overwriteProperties, c.mergeConfig(config, command.originalProperties));
    var effects := [Executed(configured, c.execute(engine, configured))];
    match c.execute(engine, configured)
    case Failure(e) => Step(engine, effects, Failure(e))
    case Success(executed) =>
      if executed.1.commandResult.None?
      then Step(executed.0, effects, Failure(Exn(NoSuchElement, "No value present")))
      else Step(executed.0, effects, Success(executed.1.commandResult.value))
  }

  // ---------------------------------------------------------------------------
  // RUN SCRIPT
  // ---------------------------------------------------------------------------

  /** The queries a statement's execution built, as a list of zero or one. */
  function QueryList(query: Option<QueryMetadata>): (r: seq<QueryMetadata>)
    ensures query.None? ==> r == []
    ensures query.Some? ==> r == [query.value]
  {
    if query.Some? then [query.value] else []
  }

  /** The queries the executions in a trace built, in the order they were built. */
  function BuiltQueries(effects: seq<Effect>): (r: seq<QueryMetadata>)
    ensures |r| <= |effects|
    ensures (forall i :: 0 <= i < |effects| ==> !effects[i].EngineExecuted?) ==> r == []
  {
    if |effects| == 0 then []
    else (if effects[0].EngineExecuted? then QueryList(effects[0].built) else []) + BuiltQueries(effects[1..])
  }

  /** `effects` close `queries`, one each, in order. */
  predicate ClosesInOrder(effects: seq<Effect>, queries: seq<QueryMetadata>)
  {
    && |effects| == |queries|
    && forall i :: 0 <= i < |queries| ==> effects[i] == QueryClosed(queries[i].queryId)
  }

  /**
   * The loop of `handleLegacyRunScript`: prepare and execute each statement
   * of the script in turn, with the command's overrides and the executor's
   * own configuration (not the merged one), collecting the queries built.
   * The first exception ends the loop; queries built before it stay.
   */
  function ExecuteScript(engine: Engine, c: Collaborators, config: KsqlConfig, overrides: map<string, Prop>,
                         statements: seq<string>): (r: Step<seq<QueryMetadata>>)
    ensures |r.effects| <= |statements|
    ensures forall i :: 0 <= i < |r.effects| ==>
              r.effects[i].EngineExecuted?
              && r.effects[i].configured.config == config
              && r.effects[i].configured.overrides == overrides
    ensures r.result.Success? ==> |r.effects| == |statements| && |r.result.value| <= |statements|
    // The queries returned are exactly those the traced executions built, in order.
    ensures r.result.Success? ==> r.result.value == BuiltQueries(r.effects)
    decreases |statements|
  {
    if |statements| == 0 then Step(engine, [], Success([]))
    else
      match c.prepare(engine, statements[0])
      case Failure(e) => Step(engine, [], Failure(e))
      case Success(prepared) =>
        var configured := ConfiguredStatement(prepared, overrides, config);
        match c.execute(engine, configured)
        case Failure(e) => Step(engine, [EngineExecuted(configured, None)], Failure(e))
        case Success(executed) =>
          var rest := ExecuteScript(executed.0, c, config, overrides, statements[1..]);
          var queries := if rest.result.Failure? then rest.result else Success(QueryList(executed.1.query) + rest.result.value);
          var effects := [EngineExecuted(configured, executed.1.query)] + rest.effects;
          assert effects[1..] == rest.effects;
          Step(rest.engine, effects, queries)
  }

  /**
   * The end of `handleLegacyRunScript`: the capacity check with no extra
   * query; over capacity, every query the script built is closed and the
   * command fails; otherwise, in EXECUTE mode, the persistent ones start.
   */
  function FinishScript(engine: Engine, c: Collaborators, merged: KsqlConfig, statementText: string,
                        queries: seq<QueryMetadata>, mode: Mode): (r: Step<string>)
    ensures |r.effects| >= 1
    ensures r.effects[0] == CapacityChecked(0, |engine.queries|, merged.activePersistentQueryLimit,
                                            ExceedsCapacity(engine, merged, 0))
    ensures forall i :: 1 <= i < |r.effects| ==> !r.effects[i].CapacityChecked?
    ensures ExceedsCapacity(engine, merged, 0) ==>
              && |r.effects| == 1 + |queries|
              && (forall i :: 0 <= i < |queries| ==> r.effects[1 + i] == QueryClosed(queries[i].queryId))
              && (forall k :: k in r.engine.queries <==> k in engine.queries && PersistentQueryMetadata(k) !in queries)
              && (forall k :: k in r.engine.queries ==> r.engine.queries[k] == engine.queries[k])
              && r.result == Failure(Exn(Ksql, c.tooManyQueries(|r.engine.queries|, merged.activePersistentQueryLimit, statementText)))
    ensures !ExceedsCapacity(engine, merged, 0) ==> r.result == Success("") && r.engine.queries.Keys == engine.queries.Keys
    ensures !ExceedsCapacity(engine, merged, 0) && mode == ExecuteMode ==>
              forall q :: q in queries && q.PersistentQueryMetadata? ==> QueryStarted(q.queryId) in r.effects
    ensures mode == RestoreMode ==> forall i :: 0 <= i < |r.effects| ==> !r.effects[i].QueryStarted?
  {
    var exceeded := ExceedsCapacity(engine, merged, 0);
    var check := CapacityChecked(0, |engine.queries|, merged.activePersistentQueryLimit, exceeded);
    if exceeded then
      var closed := CloseEach(engine, queries);
      Step(closed.engine, [check] + closed.effects,
           Failure(Exn(Ksql, c.tooManyQueries(|closed.engine.queries|, merged.activePersistentQueryLimit, statementText))))
    else if mode == ExecuteMode then
      var started := StartAll(engine, queries);
      Step(started.engine, [check] + started.effects, Success(""))
    else
      Step(engine, [check], Success(""))
  }

  /** `handleLegacyRunScript`: the script is the command's run-script override, which must be a string. */
  function RunLegacyScript(engine: Engine, c: Collaborators, config: KsqlConfig, command: Command, mode: Mode): (r: Step<string>)
    ensures var props := command.overwriteProperties;
            (LEGACY_RUN_SCRIPT_STATEMENTS_CONTENT !in props || props[LEGACY_RUN_SCRIPT_STATEMENTS_CONTENT].NullValue?) ==>
              && r.result == Failure(Exn(Ksql, "No statements received for LOAD FROM FILE."))
              && r.engine == engine && r.effects == []
    ensures var props := command.overwriteProperties;
            (LEGACY_RUN_SCRIPT_STATEMENTS_CONTENT in props && !props[LEGACY_RUN_SCRIPT_STATEMENTS_CONTENT].NullValue?
             && !props[LEGACY_RUN_SCRIPT_STATEMENTS_CONTENT].Text?) ==>
              && r.result.Failure? && r.result.error.cls == ClassCast
              && r.engine == engine && r.effects == []
    ensures forall i :: 0 <= i < |r.effects| && r.effects[i].EngineExecuted? ==> r.effects[i].configured.config == config
    ensures mode == RestoreMode ==> forall i :: 0 <= i < |r.effects| ==> !r.effects[i].QueryStarted?
    // The one capacity check, if any, comes after every execution and counts no extra query.
    ensures forall k :: 0 <= k < |r.effects| && r.effects[k].CapacityChecked? ==>
              r.effects[k].extra == 0 && forall j :: 0 <= j < k ==> r.effects[j].EngineExecuted?
    // Over capacity, the queries the script's executions built are closed, in order, and the command fails.
    ensures forall k :: 0 <= k < |r.effects| && r.effects[k].CapacityChecked? && r.effects[k].exceeded ==>
              && ClosesInOrder(r.effects[k + 1..], BuiltQueries(r.effects[..k]))
              && r.result == Failure(Exn(Ksql, c.tooManyQueries(|r.engine.queries|,
                                                                 c.mergeConfig(config, command.originalProperties).activePersistentQueryLimit,
                                                                 command.statement)))
    // A script that succeeds passed the capacity check.
    ensures r.result.Success? ==>
              exists k :: 0 <= k < |r.effects| && r.effects[k].CapacityChecked? && !r.effects[k].exceeded
  {
    var props := command.overwriteProperties;
    var content := if LEGACY_RUN_SCRIPT_STATEMENTS_CONTENT in props then props[LEGACY_RUN_SCRIPT_STATEMENTS_CONTENT] else NullValue;
    if content.NullValue? then
      Step(engine, [], Failure(Exn(Ksql, "No statements received for LOAD FROM FILE.")))
    else if !content.Text? then
      Step(engine, [], Failure(Exn(ClassCast, "cannot be cast to java.lang.String")))
    else
      match c.parseScript(content.text)
      case Failure(e) => Step(engine, [], Failure(e))
      case Success(statements) => RunStatements(engine, c, config, command, statements, mode)
  }

  /** The parsed statements of a legacy script: run them all, then check capacity and close or start what they built. */
  function RunStatements(engine: Engine, c: Collaborators, config: KsqlConfig, command: Command,
                         statements: seq<string>, mode: Mode): (r: Step<string>)
    ensures forall i :: 0 <= i < |r.effects| && r.effects[i].EngineExecuted? ==> r.effects[i].configured.config == config
    ensures mode == RestoreMode ==> forall i :: 0 <= i < |r.effects| ==> !r.effects[i].QueryStarted?
    // The one capacity check, if any, comes after every execution and counts no extra query.
    ensures forall k :: 0 <= k < |r.effects| && r.effects[k].CapacityChecked? ==>
              r.effects[k].extra == 0 && forall j :: 0 <= j < k ==> r.effects[j].EngineExecuted?
    // Over capacity, the queries the script's executions built are closed, in order, and the command fails.
    ensures forall k :: 0 <= k < |r.effects| && r.effects[k].CapacityChecked? && r.effects[k].exceeded ==>
              && ClosesInOrder(r.effects[k + 1..], BuiltQueries(r.effects[..k]))
              && r.result == Failure(Exn(Ksql, c.tooManyQueries(|r.engine.queries|,
                                                                 c.mergeConfig(config, command.originalProperties).activePersistentQueryLimit,
                                                                 command.statement)))
    // A script that succeeds passed the capacity check.
    ensures r.result.Success? ==>
              exists k :: 0 <= k < |r.effects| && r.effects[k].CapacityChecked? && !r.effects[k].exceeded
  {
    var run := ExecuteScript(engine, c, config, command.overwriteProperties, statements);
    if run.result.Failure? then Step(run.engine, run.effects, Failure(run.result.error))
    else
      var merged := c.mergeConfig(config, command.originalProperties);
      var finish := FinishScript(run.engine, c, merged, command.statement, run.result.value, mode);
      assert forall i :: 0 <= i < |finish.effects| ==> !finish.effects[i].EngineExecuted? by {
        LegacyScriptFinishExecutesNothing(run.engine, c, merged, command.statement, run.result.value, mode);
      }
      ScriptTrace(run.effects, finish.effects);
      Step(finish.engine, run.effects + finish.effects, finish.result)
  }

  /**
   * A script's trace: its executions, then its end. The end's capacity
   * check is the only one, and over capacity the end closes exactly the
   * queries the executions built, in order.
   */
  lemma ScriptTrace(run: seq<Effect>, finish: seq<Effect>)
    requires forall i :: 0 <= i < |run| ==> run[i].EngineExecuted?
    requires |finish| >= 1 && finish[0].CapacityChecked?
    requires forall i :: 1 <= i < |finish| ==> !finish[i].CapacityChecked?
    requires finish[0].exceeded ==>
               && |finish| == 1 + |BuiltQueries(run)|
               && forall i :: 0 <= i < |BuiltQueries(run)| ==> finish[1 + i] == QueryClosed(BuiltQueries(run)[i].queryId)
    ensures (run + finish)[|run|] == finish[0]
    ensures forall k :: 0 <= k < |run + finish| && (run + finish)[k].CapacityChecked? ==>
              && k == |run| && (run + finish)[k] == finish[0]
              && (forall j :: 0 <= j < k ==> (run + finish)[j].EngineExecuted?)
              && (finish[0].exceeded ==> ClosesInOrder((run + finish)[k + 1..], BuiltQueries((run + finish)[..k])))
  {
    var effects := run + finish;
    assert forall k :: 0 <= k < |effects| && effects[k].CapacityChecked? ==>
             k == |run| && effects[..k] == run && effects[k + 1..] == finish[1..];
    if finish[0].exceeded {
      assert ClosesInOrder(finish[1..], BuiltQueries(run));
    }
  }

  /**
   * A script that parses and runs to the end with the engine over capacity:
   * the command's trace is the executions, the failed check, then one close
   * per query the run returned, in order; the command fails with the
   * too-many-queries message.
   */
  lemma ScriptOverCapacityClosesBuilt(engine: Engine, c: Collaborators, config: KsqlConfig, command: Command, mode: Mode)
    requires LEGACY_RUN_SCRIPT_STATEMENTS_CONTENT in command.overwriteProperties
    requires command.overwriteProperties[LEGACY_RUN_SCRIPT_STATEMENTS_CONTENT].Text?
    requires c.parseScript(command.overwriteProperties[LEGACY_RUN_SCRIPT_STATEMENTS_CONTENT].text).Success?
    requires var statements := c.parseScript(command.overwriteProperties[LEGACY_RUN_SCRIPT_STATEMENTS_CONTENT].text).value;
             var run := ExecuteScript(engine, c, config, command.overwriteProperties, statements);
             run.result.Success? && ExceedsCapacity(run.engine, c.mergeConfig(config, command.originalProperties), 0)
    ensures var statements := c.parseScript(command.overwriteProperties[LEGACY_RUN_SCRIPT_STATEMENTS_CONTENT].text).value;
            var run := ExecuteScript(engine, c, config, command.overwriteProperties, statements);
            var merged := c.mergeConfig(config, command.originalProperties);
            var r := RunLegacyScript(engine, c, config, command, mode);
            && |r.effects| == |statements| + 1 + |run.result.value|
            && r.effects[..|statements|] == run.effects
            && r.effects[|statements|] == CapacityChecked(0, |run.engine.queries|, merged.activePersistentQueryLimit, true)
            && ClosesInOrder(r.effects[|statements| + 1..], run.result.value)
            && r.result == Failure(Exn(Ksql, c.tooManyQueries(|r.engine.queries|, merged.activePersistentQueryLimit, command.statement)))
  {
    var statements := c.parseScript(command.overwriteProperties[LEGACY_RUN_SCRIPT_STATEMENTS_CONTENT].text).value;
    var run := ExecuteScript(engine, c, config, command.overwriteProperties, statements);
    var merged := c.mergeConfig(config, command.originalProperties);
    var finish := FinishScript(run.engine, c, merged, command.statement, run.result.value, mode);
    ScriptRunsThenFinishes(engine, c, config, command, mode);
    assert ClosesInOrder(finish.effects[1..], run.result.value);
    Juxtaposed(run.effects, finish.effects);
  }

  /** A script that parses and runs to the end: its trace is the run's, then the end's. */
  lemma ScriptRunsThenFinishes(engine: Engine, c: Collaborators, config: KsqlConfig, command: Command, mode: Mode)
    requires LEGACY_RUN_SCRIPT_STATEMENTS_CONTENT in command.overwriteProperties
    requires command.overwriteProperties[LEGACY_RUN_SCRIPT_STATEMENTS_CONTENT].Text?
    requires c.parseScript(command.overwriteProperties[LEGACY_RUN_SCRIPT_STATEMENTS_CONTENT].text).Success?
    requires var statements := c.parseScript(command.overwriteProperties[LEGACY_RUN_SCRIPT_STATEMENTS_CONTENT].text).value;
             ExecuteScript(engine, c, config, command.overwriteProperties, statements).result.Success?
    ensures var statements := c.parseScript(command.overwriteProperties[LEGACY_RUN_SCRIPT_STATEMENTS_CONTENT].text).value;
            var run := ExecuteScript(engine, c, config, command.overwriteProperties, statements);
            var merged := c.mergeConfig(config, command.originalProperties);
            var finish := FinishScript(run.engine, c, merged, command.statement, run.result.value, mode);
            RunLegacyScript(engine, c, config, command, mode) == Step(finish.engine, run.effects + finish.effects, finish.result)
  {
  }

  /** The two halves of a concatenation, and the element where they meet. */
  lemma Juxtaposed(front: seq<Effect>, back: seq<Effect>)
    requires |back| >= 1
    ensures (front + back)[..|front|] == front
    ensures (front + back)[|front|] == back[0]
    ensures (front + back)[|front| + 1..] == back[1..]
  {
  }

  /** The end of a script executes no statement. */
  lemma LegacyScriptFinishExecutesNothing(engine: Engine, c: Collaborators, merged: KsqlConfig, statementText: string,
                                          queries: seq<QueryMetadata>, mode: Mode)
    ensures var r := FinishScript(engine, c, merged, statementText, queries, mode);
            forall i :: 0 <= i < |r.effects| ==> !r.effects[i].EngineExecuted?
  {
  }

  // ---------------------------------------------------------------------------
  // executeStatement
  // ---------------------------------------------------------------------------

  /**
   * The message of the exception for a statement the executor does not
   * handle, as the source builds it: it formats the class of the
   * `PreparedStatement` wrapper, not of the statement inside it.
   */
  function UnexpectedStatementMessageAsWritten(st: PreparedStatement): string
  {
    UNEXPECTED_STATEMENT_PREFIX + PREPARED_STATEMENT_CLASS
  }

  /** As written, the message is the same for every statement, and names none of them. */
  lemma AsWrittenMessageNamesNoStatement(a: PreparedStatement, b: PreparedStatement)
    requires a.statement.OtherStatement? && b.statement.OtherStatement?
    ensures UnexpectedStatementMessageAsWritten(a) == UnexpectedStatementMessageAsWritten(b)
    ensures var listTopics := PreparedStatement("LIST TOPICS;", OtherStatement("io.confluent.ksql.parser.tree.ListTopics"));
            UnexpectedStatementMessageAsWritten(listTopics) != UNEXPECTED_STATEMENT_PREFIX + listTopics.statement.className
  {
    var listTopics := PreparedStatement("LIST TOPICS;", OtherStatement("io.confluent.ksql.parser.tree.ListTopics"));
    var m := UnexpectedStatementMessageAsWritten(listTopics);
    assert m[|UNEXPECTED_STATEMENT_PREFIX| + 25] == 'K';
    assert (UNEXPECTED_STATEMENT_PREFIX + listTopics.statement.className)[|UNEXPECTED_STATEMENT_PREFIX| + 25] == 't';
  }

  /** The message naming the class of the unexpected statement itself. */
  function UnexpectedStatementMessage(className: string): (r: string)
    ensures |r| == |UNEXPECTED_STATEMENT_PREFIX| + |className|
    ensures r[..|UNEXPECTED_STATEMENT_PREFIX|] == UNEXPECTED_STATEMENT_PREFIX
    ensures r[|UNEXPECTED_STATEMENT_PREFIX|..] == className
  {
    UNEXPECTED_STATEMENT_PREFIX + className
  }

  /** Statements of different classes get different messages. */
  lemma UnexpectedStatementMessageDistinguishes(a: string, b: string)
    requires a != b
    ensures UnexpectedStatementMessage(a) != UnexpectedStatementMessage(b)
  {
    var ma := UnexpectedStatementMessage(a);
    var mb := UnexpectedStatementMessage(b);
    assert ma[|UNEXPECTED_STATEMENT_PREFIX|..] == a && mb[|UNEXPECTED_STATEMENT_PREFIX|..] == b;
  }

  /** The SUCCESS message of a CREATE TABLE/STREAM AS SELECT. */
  function CreatedMessage(node: Ast.CreateAsSelect, queryId: string): string
  {
    (if node.CreateTableAsSelect? then "Table " else "Stream ") + node.name
      + " created and running. Created by query with query ID: " + queryId
  }

  /** The success message of a query started by INSERT INTO. */
  function InsertMessage(queryId: string): string
  {
    "Insert Into query is running with query ID: " + queryId
  }

  /** `executeStatement` up to the final status: the dispatch on the statement's kind; the result is the SUCCESS message. */
  function ExecuteStatement(engine: Engine, c: Collaborators, config: KsqlConfig, st: PreparedStatement,
                            command: Command, mode: Mode, offset: int): (r: Step<string>)
    ensures st.statement.OtherStatement? ==>
              r == Step(engine, [], Failure(Exn(Ksql, UnexpectedStatementMessageAsWritten(st))))
    ensures st.statement.DdlStatement? ==> r == ExecuteDdl(engine, c, config, st, command)
    ensures st.statement.TerminateQuery? ==> r == Terminate(engine, st.statement.queryId)
    ensures st.statement.RunScript? ==> r == RunLegacyScript(engine, c, config, command, mode)
    ensures (st.statement.CreateAsSelectStatement? || st.statement.InsertInto?) ==>
              var started := StartPersistentQuery(engine, c, config, st, command, mode, offset);
              && r.engine == started.engine && r.effects == started.effects
              && (r.result.Success? <==> started.result.Success?)
              && (r.result.Failure? ==> r.result == Failure(started.result.error))
              && (r.result.Success? && st.statement.CreateAsSelectStatement? ==>
                    r.result.value == CreatedMessage(st.statement.node, started.result.value))
              && (r.result.Success? && st.statement.InsertInto? ==>
                    r.result.value == InsertMessage(started.result.value))
    ensures mode == RestoreMode ==> forall i :: 0 <= i < |r.effects| ==> !r.effects[i].QueryStarted?
  {
    match st.statement
    case DdlStatement(_) => ExecuteDdl(engine, c, config, st, command)
    case CreateAsSelectStatement(node) =>
      var started := StartPersistentQuery(engine, c, config, st, command, mode, offset);
      if started.result.Failure? then Step(started.engine, started.effects, Failure(started.result.error))
      else Step(started.engine, started.effects, Success(CreatedMessage(node, started.result.value)))
    case InsertInto(_) =>
      var started := StartPersistentQuery(engine, c, config, st, command, mode, offset);
      if started.result.Failure? then Step(started.engine, started.effects, Failure(started.result.error))
      else Step(started.engine, started.effects, Success(InsertMessage(started.result.value)))
    case TerminateQuery(queryId) => Terminate(engine, queryId)
    case RunScript => RunLegacyScript(engine, c, config, command, mode)
    case OtherStatement(_) =>
      Step(engine, [], Failure(Exn(Ksql, UnexpectedStatementMessageAsWritten(st))))
  }

  // ---------------------------------------------------------------------------
  // Handling one command
  // ---------------------------------------------------------------------------

  /** The `catch (KsqlException)` of the handler: record ERROR with the stack trace, or let the exception escape. */
  function Catch(x: Executor, c: Collaborators, id: CommandId, e: Exn): (r: Outcome)
    ensures e.cls == Ksql ==> r == Outcome(PutStatus(x, id, CommandStatus(Errored, c.stackTrace(e)), true), None)
    ensures e.cls != Ksql ==> r == Outcome(x, Some(e))
  {
    if e.cls == Ksql then Outcome(PutStatus(x, id, CommandStatus(Errored, c.stackTrace(e)), true), None)
    else Outcome(x, Some(e))
  }

  /**
   * `handleStatementWithTerminatedQueries`, with `executeStatement` given as
   * `run`: the legacy drop, PARSING, parsing, EXECUTING, the statement, and
   * the final status.
   */
  function HandleCommand(x: Executor, c: Collaborators, q: QueuedCommand, run: PreparedStatement -> Step<string>): (r: Outcome)
    ensures r.state.config == x.config
    ensures |r.state.trace| > |x.trace| && r.state.trace[..|x.trace|] == x.trace
    ensures q.commandId in r.state.statuses
    ensures forall k :: k != q.commandId ==>
              (k in r.state.statuses <==> k in x.statuses)
              && (k in x.statuses ==> r.state.statuses[k] == x.statuses[k])
    // Only exceptions other than KsqlException escape, leaving a non-final status.
    ensures r.escaped.Some? ==>
              && r.escaped.value.cls != Ksql
              && r.state.statuses[q.commandId].status in {Parsing, Executing}
    // Otherwise the command ends with SUCCESS or ERROR, and that final status is the last event.
    ensures r.escaped.None? ==>
              && r.state.statuses[q.commandId].status in {Succeeded, Errored}
              && r.state.trace[|r.state.trace| - 1] == StatusPut(q.commandId, r.state.statuses[q.commandId], true)
    // A parse failure that is a KsqlException ends in ERROR right after PARSING.
    ensures c.parseSingle(AfterParsingStatus(x, q).engine, q.command.statement).Failure? ==>
              r.state.trace == AfterParsingStatus(x, q).trace + (if r.escaped.None? then [StatusPut(q.commandId, r.state.statuses[q.commandId], true)] else [])
    ensures c.parseSingle(AfterParsingStatus(x, q).engine, q.command.statement).Success? ==>
              r == Finish(AfterParsingStatus(x, q), c, q.commandId, run(c.parseSingle(AfterParsingStatus(x, q).engine, q.command.statement).value))
  {
    var parsing := AfterParsingStatus(x, q);
    match c.parseSingle(AfterParsingStatus(x, q).engine, q.command.statement)
    case Failure(e) => Catch(parsing, c, q.commandId, e)
    case Success(st) => Finish(parsing, c, q.commandId, run(st))
  }

  /** `handleStatementWithTerminatedQueries` in the given mode. */
  function Handle(x: Executor, c: Collaborators, config: KsqlConfig, q: QueuedCommand, mode: Mode): Outcome
  {
    HandleCommand(x, c, q, st => ExecuteStatement(AfterParsingStatus(x, q).engine, c, config, st, q.command, mode, q.offset))
  }

  /** The executor once the legacy drop ran and PARSING was written. */
  function AfterParsingStatus(x: Executor, q: QueuedCommand): (r: Executor)
    ensures var legacy := LegacyDrop(x.engine, q.commandId, q.command);
            && r.trace == x.trace + Lift(legacy.effects) + [StatusPut(q.commandId, PARSING_STATUS, false)]
            && r.engine == legacy.engine
            && r.statuses == x.statuses[q.commandId := PARSING_STATUS]
            && r.config == x.config
  {
    var legacy := LegacyDrop(x.engine, q.commandId, q.command);
    PutStatus(Apply(x, legacy.engine, legacy.effects), q.commandId, PARSING_STATUS, false)
  }

  /**
   * After a successful parse: EXECUTING, the statement's effects on the
   * engine, then SUCCESS with the statement's message, or the handling of
   * its exception.
   */
  function Finish(parsing: Executor, c: Collaborators, id: CommandId, step: Step<string>): (r: Outcome)
    ensures r.state.config == parsing.config && r.state.engine == step.engine
    ensures |r.state.trace| > |parsing.trace| && r.state.trace[..|parsing.trace|] == parsing.trace
    ensures id in r.state.statuses
    ensures forall k :: k != id ==>
              (k in r.state.statuses <==> k in parsing.statuses)
              && (k in parsing.statuses ==> r.state.statuses[k] == parsing.statuses[k])
    ensures r.escaped.Some? ==> r.escaped.value.cls != Ksql && r.state.statuses[id] == EXECUTING_STATUS
    ensures r.escaped.None? ==>
              && r.state.statuses[id].status in {Succeeded, Errored}
              && r.state.trace[|r.state.trace| - 1] == StatusPut(id, r.state.statuses[id], true)
    ensures step.result.Success? ==> r.state.statuses[id] == CommandStatus(Succeeded, step.result.value)
    ensures r.escaped.None? ==>
              r.state.trace == parsing.trace + ([StatusPut(id, EXECUTING_STATUS, false)] + Lift(step.effects))
                                             + [StatusPut(id, r.state.statuses[id], true)]
    ensures r.escaped.Some? ==>
              r.state.trace == parsing.trace + ([StatusPut(id, EXECUTING_STATUS, false)] + Lift(step.effects))
  {
    var executing := PutStatus(parsing, id, EXECUTING_STATUS, false);
    var after := Apply(executing, step.engine, step.effects);
    assert after.trace == parsing.trace + ([StatusPut(id, EXECUTING_STATUS, false)] + Lift(step.effects));
    match step.result
    case Success(message) => Outcome(PutStatus(after, id, CommandStatus(Succeeded, message), true), None)
    case Failure(e) => Catch(after, c, id, e)
  }

  /** After a parse: EXECUTING, then SUCCESS or ERROR, or EXECUTING alone when an exception escapes. */
  lemma FinishStatusKinds(parsing: Executor, c: Collaborators, id: CommandId, step: Step<string>)
    ensures var r := Finish(parsing, c, id, step);
            var kinds := StatusKinds(r.state.trace[|parsing.trace|..]);
            && (r.escaped.None? ==> kinds == [Executing, Succeeded] || kinds == [Executing, Errored])
            && (r.escaped.Some? ==> kinds == [Executing])
  {
    var r := Finish(parsing, c, id, step);
    var first := StatusPut(id, EXECUTING_STATUS, false);
    var d := [first] + Lift(step.effects);
    if r.escaped.None? {
      var last := StatusPut(id, r.state.statuses[id], true);
      assert r.state.trace == parsing.trace + (d + [last]);
      DropPrefix(parsing.trace, d + [last]);
      PutsAroundEffects(first, step.effects, last);
      assert last.status.status == Succeeded || last.status.status == Errored;
    } else {
      DropPrefix(parsing.trace, d);
      PutsAroundEffects(first, step.effects, first);
    }
  }

  lemma DropPrefix(prefix: seq<Event>, rest: seq<Event>)
    ensures (prefix + rest)[|prefix|..] == rest
  {
  }

  /** `handleStatement`: run a new command, once configured. */
  function HandleStatement(x: Executor, c: Collaborators, q: QueuedCommand): (r: Outcome)
    ensures x.config.None? ==> r == Outcome(x, Some(Exn(IllegalState, "No initialized")))
    ensures x.config.Some? ==> r == Handle(x, c, x.config.value, q, ExecuteMode)
  {
    if x.config.None? then Outcome(x, Some(Exn(IllegalState, "No initialized")))
    else Handle(x, c, x.config.value, q, ExecuteMode)
  }

  /** `handleRestore`: replay a command from the log, once configured. */
  function HandleRestore(x: Executor, c: Collaborators, q: QueuedCommand): (r: Outcome)
    ensures x.config.None? ==> r == Outcome(x, Some(Exn(IllegalState, "No initialized")))
    ensures x.config.Some? ==> r == Handle(x, c, x.config.value, q, RestoreMode)
  {
    if x.config.None? then Outcome(x, Some(Exn(IllegalState, "No initialized")))
    else Handle(x, c, x.config.value, q, RestoreMode)
  }

  // ---------------------------------------------------------------------------
  // Properties of a handled command
  // ---------------------------------------------------------------------------

  /**
   * The statuses a command goes through: PARSING, EXECUTING, SUCCESS on
   * success; PARSING then ERROR when parsing fails; PARSING, EXECUTING,
   * ERROR when execution fails; and only PARSING or PARSING, EXECUTING when
   * an exception escapes.
   */
  lemma StatusTraceShapes(x: Executor, c: Collaborators, q: QueuedCommand, run: PreparedStatement -> Step<string>)
    ensures var r := HandleCommand(x, c, q, run);
            var kinds := StatusKinds(r.state.trace[|x.trace|..]);
            && (r.escaped.None? ==>
                  kinds == [Parsing, Executing, Succeeded] || kinds == [Parsing, Errored] || kinds == [Parsing, Executing, Errored])
            && (r.escaped.Some? ==> kinds == [Parsing] || kinds == [Parsing, Executing])
  {
    var r := HandleCommand(x, c, q, run);
    AfterParsingKinds(x, c, q, run);
    ParsingPrefixKinds(x, q, r.state.trace);
    PrependParsing(StatusKinds(r.state.trace[|AfterParsingStatus(x, q).trace|..]));
  }

  /** PARSING followed by each shape of what comes after it. */
  lemma PrependParsing(after: seq<Status>)
    ensures after == [] ==> [Parsing] + after == [Parsing]
    ensures after == [Executing] ==> [Parsing] + after == [Parsing, Executing]
    ensures after == [Errored] ==> [Parsing] + after == [Parsing, Errored]
    ensures after == [Executing, Succeeded] ==> [Parsing] + after == [Parsing, Executing, Succeeded]
    ensures after == [Executing, Errored] ==> [Parsing] + after == [Parsing, Executing, Errored]
  {
  }

  /** Up to PARSING, a command's trace writes the PARSING status and nothing else. */
  lemma ParsingPrefixKinds(x: Executor, q: QueuedCommand, t: seq<Event>)
    requires var p := AfterParsingStatus(x, q).trace; |t| >= |p| && t[..|p|] == p
    ensures var p := AfterParsingStatus(x, q).trace;
            StatusKinds(t[|x.trace|..]) == [Parsing] + StatusKinds(t[|p|..])
  {
    var legacy := LegacyDrop(x.engine, q.commandId, q.command);
    var put := StatusPut(q.commandId, PARSING_STATUS, false);
    var d1 := Lift(legacy.effects) + [put];
    assert AfterParsingStatus(x, q).trace == x.trace + d1;
    EffectsThenPut(legacy.effects, put);
    SplitAfter(t, x.trace, d1);
    StatusKindsAppend(d1, t[|x.trace| + |d1|..]);
  }

  /** After PARSING: ERROR alone on a parse failure, otherwise what `Finish` writes. */
  lemma AfterParsingKinds(x: Executor, c: Collaborators, q: QueuedCommand, run: PreparedStatement -> Step<string>)
    ensures var r := HandleCommand(x, c, q, run);
            var p := AfterParsingStatus(x, q).trace;
            |r.state.trace| >= |p| && r.state.trace[..|p|] == p
    ensures var r := HandleCommand(x, c, q, run);
            var kinds := StatusKinds(r.state.trace[|AfterParsingStatus(x, q).trace|..]);
            && (r.escaped.None? ==> kinds == [Executing, Succeeded] || kinds == [Errored] || kinds == [Executing, Errored])
            && (r.escaped.Some? ==> kinds == [] || kinds == [Executing])
  {
    var parsing := AfterParsingStatus(x, q);
    var parsed := c.parseSingle(AfterParsingStatus(x, q).engine, q.command.statement);
    if parsed.Failure? {
      var r := Catch(parsing, c, q.commandId, parsed.error);
      if r.escaped.None? {
        var fin := StatusPut(q.commandId, r.state.statuses[q.commandId], true);
        assert r.state.trace == parsing.trace + [fin];
        DropPrefix(parsing.trace, [fin]);
        assert StatusKinds([fin]) == [Errored] by {
          assert [fin][1..] == [];
        }
      } else {
        assert r.state.trace == parsing.trace;
        DropPrefix(parsing.trace, []);
      }
    } else {
      FinishStatusKinds(parsing, c, q.commandId, run(parsed.value));
    }
  }

  /** Engine effects followed by one status write: that status alone. */
  lemma EffectsThenPut(effects: seq<Effect>, put: Event)
    requires put.StatusPut?
    ensures StatusKinds(Lift(effects) + [put]) == [put.status.status]
  {
    LiftWritesNoStatus(effects);
    StatusKindsAppend(Lift(effects), [put]);
    assert [put][1..] == [];
  }

  lemma SplitAfter(t: seq<Event>, base: seq<Event>, mid: seq<Event>)
    requires |t| >= |base| + |mid| && t[..|base| + |mid|] == base + mid
    ensures t[|base|..] == mid + t[|base| + |mid|..]
  {
    assert t == t[..|base| + |mid|] + t[|base| + |mid|..];
  }

  /** The legacy drop's closes come first, and PARSING is written right after them. */
  lemma LegacyDropBeforeParsing(x: Executor, c: Collaborators, q: QueuedCommand, run: PreparedStatement -> Step<string>)
    ensures var r := HandleCommand(x, c, q, run);
            var legacy := LegacyDrop(x.engine, q.commandId, q.command);
            var k := |x.trace| + |legacy.effects|;
            && |r.state.trace| > k
            && r.state.trace[..k] == x.trace + Lift(legacy.effects)
            && r.state.trace[k] == StatusPut(q.commandId, PARSING_STATUS, false)
  {
    var legacy := LegacyDrop(x.engine, q.commandId, q.command);
    var parsing := AfterParsingStatus(x, q);
    var r := HandleCommand(x, c, q, run);
    var k := |x.trace| + |legacy.effects|;
    assert |parsing.trace| == k + 1;
    assert r.state.trace[..k + 1] == parsing.trace;
    assert parsing.trace[..k] == x.trace + Lift(legacy.effects);
  }

  /** No event of `events` from position `from` on starts a query. */
  predicate StartsNoQuery(events: seq<Event>, from: nat)
  {
    forall i :: from <= i < |events| ==> !(events[i].EngineEffect? && events[i].effect.QueryStarted?)
  }

  /** When the statement starts no query, neither does the command. */
  lemma StartsOnlyThroughStatement(x: Executor, c: Collaborators, q: QueuedCommand, run: PreparedStatement -> Step<string>)
    requires forall st :: forall i :: 0 <= i < |run(st).effects| ==> !run(st).effects[i].QueryStarted?
    ensures StartsNoQuery(HandleCommand(x, c, q, run).state.trace, |x.trace|)
  {
    var parsing := AfterParsingStatus(x, q);
    assert StartsNoQuery(parsing.trace, |x.trace|);
    var parsed := c.parseSingle(AfterParsingStatus(x, q).engine, q.command.statement);
    if parsed.Success? {
      var step := run(parsed.value);
      var r := Finish(parsing, c, q.commandId, step);
      assert StartsNoQuery(r.state.trace, |parsing.trace|);
    }
  }

  /** In RESTORE mode, no query is started. */
  lemma RestoreStartsNothing(x: Executor, c: Collaborators, q: QueuedCommand)
    ensures StartsNoQuery(HandleRestore(x, c, q).state.trace, |x.trace|)
  {
    if x.config.Some? {
      var config := x.config.value;
      var run := st => ExecuteStatement(AfterParsingStatus(x, q).engine, c, config, st, q.command, RestoreMode, q.offset);
      StartsOnlyThroughStatement(x, c, q, run);
    }
  }

  /**
   * A new CREATE ... AS SELECT whose query the engine builds ends with
   * SUCCESS naming the sink and the query, and the query was started before
   * that status was written.
   */
  lemma CreateAsSelectSucceeds(x: Executor, c: Collaborators, q: QueuedCommand)
    requires x.config.Some?
    requires c.parseSingle(AfterParsingStatus(x, q).engine, q.command.statement).Success?
    requires c.parseSingle(AfterParsingStatus(x, q).engine, q.command.statement).value.statement.CreateAsSelectStatement?
    requires StartPersistentQuery(AfterParsingStatus(x, q).engine, c, x.config.value,
                                  c.parseSingle(AfterParsingStatus(x, q).engine, q.command.statement).value, q.command, ExecuteMode, q.offset).result.Success?
    ensures var st := c.parseSingle(AfterParsingStatus(x, q).engine, q.command.statement).value;
            var started := StartPersistentQuery(AfterParsingStatus(x, q).engine, c, x.config.value, st, q.command, ExecuteMode, q.offset);
            var r := HandleStatement(x, c, q);
            && r.escaped.None?
            && r.state.statuses[q.commandId] == CommandStatus(Succeeded, CreatedMessage(st.statement.node, started.result.value))
            && r.state.trace[|r.state.trace| - 2] == EngineEffect(QueryStarted(started.result.value))
  {
    var st := c.parseSingle(AfterParsingStatus(x, q).engine, q.command.statement).value;
    var parsing := AfterParsingStatus(x, q);
    var step := ExecuteStatement(parsing.engine, c, x.config.value, st, q.command, ExecuteMode, q.offset);
    var started := StartPersistentQuery(parsing.engine, c, x.config.value, st, q.command, ExecuteMode, q.offset);
    assert step.effects == started.effects && step.result.Success?;
    var r := Finish(parsing, c, q.commandId, step);
    assert HandleStatement(x, c, q) == r;
    var tail := [StatusPut(q.commandId, EXECUTING_STATUS, false)] + Lift(step.effects);
    assert r.state.trace[|r.state.trace| - 2] == tail[|tail| - 1];
  }

  /**
   * A command that names an unknown query in TERMINATE ends with ERROR and
   * leaves the engine as the legacy drop left it.
   */
  lemma TerminateUnknownQueryFails(x: Executor, c: Collaborators, q: QueuedCommand)
    requires x.config.Some?
    requires c.parseSingle(AfterParsingStatus(x, q).engine, q.command.statement).Success?
    requires c.parseSingle(AfterParsingStatus(x, q).engine, q.command.statement).value.statement.TerminateQuery?
    requires c.parseSingle(AfterParsingStatus(x, q).engine, q.command.statement).value.statement.queryId !in AfterParsingStatus(x, q).engine.queries
    ensures var id := c.parseSingle(AfterParsingStatus(x, q).engine, q.command.statement).value.statement.queryId;
            var r := HandleStatement(x, c, q);
            && r.escaped.None?
            && r.state.statuses[q.commandId]
               == CommandStatus(Errored, c.stackTrace(Exn(Ksql, "No running query with id " + id + " was found")))
            && r.state.engine == AfterParsingStatus(x, q).engine
  {
    var st := c.parseSingle(AfterParsingStatus(x, q).engine, q.command.statement).value;
    var parsing := AfterParsingStatus(x, q);
    var step := ExecuteStatement(parsing.engine, c, x.config.value, st, q.command, ExecuteMode, q.offset);
    assert step == Terminate(parsing.engine, st.statement.queryId);
    assert HandleStatement(x, c, q) == Finish(parsing, c, q.commandId, step);
  }

  /**
   * A statement the executor does not handle ends in ERROR right after
   * EXECUTING, with the stack trace of the message as the code writes it, and
   * leaves the engine as the legacy drop left it.
   */
  lemma UnexpectedStatementFails(x: Executor, c: Collaborators, q: QueuedCommand)
    requires x.config.Some?
    requires c.parseSingle(AfterParsingStatus(x, q).engine, q.command.statement).Success?
    requires c.parseSingle(AfterParsingStatus(x, q).engine, q.command.statement).value.statement.OtherStatement?
    ensures var r := HandleStatement(x, c, q);
            var status := CommandStatus(Errored, c.stackTrace(Exn(Ksql, UNEXPECTED_STATEMENT_PREFIX + PREPARED_STATEMENT_CLASS)));
            && r.escaped.None?
            && r.state.statuses[q.commandId] == status
            && r.state.engine == AfterParsingStatus(x, q).engine
            && r.state.trace == AfterParsingStatus(x, q).trace
                                + [StatusPut(q.commandId, EXECUTING_STATUS, false), StatusPut(q.commandId, status, true)]
  {
    var st := c.parseSingle(AfterParsingStatus(x, q).engine, q.command.statement).value;
    var parsing := AfterParsingStatus(x, q);
    var step := ExecuteStatement(parsing.engine, c, x.config.value, st, q.command, ExecuteMode, q.offset);
    assert step == Step(parsing.engine, [], Failure(Exn(Ksql, UNEXPECTED_STATEMENT_PREFIX + PREPARED_STATEMENT_CLASS)));
    assert HandleStatement(x, c, q) == Finish(parsing, c, q.commandId, step);
    assert Lift([]) == [];
  }

  // ---------------------------------------------------------------------------
  // Replaying the command log
  // ---------------------------------------------------------------------------

  /** Restore each command of the log in order, stopping at the first exception that escapes. */
  function RestoreAll(x: Executor, c: Collaborators, log: seq<QueuedCommand>): (r: Outcome)
    decreases |log|
  {
    if |log| == 0 then Outcome(x, None)
    else
      var first := HandleRestore(x, c, log[0]);
      if first.escaped.Some? then first else RestoreAll(first.state, c, log[1..])
  }

  /** SUCCESS or ERROR: the statuses a handled command ends with. */
  predicate IsFinal(s: CommandStatus)
  {
    s.status == Succeeded || s.status == Errored
  }

  /** One restored command without escape: its own status is final, and final statuses stay final. */
  lemma RestoreStepKeepsFinal(x: Executor, c: Collaborators, q: QueuedCommand)
    ensures var r := HandleRestore(x, c, q);
            r.escaped.None? ==>
              && q.commandId in r.state.statuses && IsFinal(r.state.statuses[q.commandId])
              && (forall k :: k in x.statuses && IsFinal(x.statuses[k]) ==>
                    k in r.state.statuses && IsFinal(r.state.statuses[k]))
  {
  }

  /**
   * A replay that completes leaves every command of the log with a SUCCESS
   * or ERROR status, and keeps every status that was already final.
   */
  lemma {:induction false} RestoreAllLeavesFinalStatuses(x: Executor, c: Collaborators, log: seq<QueuedCommand>)
    ensures var r := RestoreAll(x, c, log);
            r.escaped.None? ==>
              && (forall q :: q in log ==> q.commandId in r.state.statuses && IsFinal(r.state.statuses[q.commandId]))
              && (forall k :: k in x.statuses && IsFinal(x.statuses[k]) ==>
                    k in r.state.statuses && IsFinal(r.state.statuses[k]))
    decreases |log|
  {
    if |log| > 0 {
      var first := HandleRestore(x, c, log[0]);
      RestoreStepKeepsFinal(x, c, log[0]);
      if first.escaped.None? {
        RestoreAllLeavesFinalStatuses(first.state, c, log[1..]);
        var r := RestoreAll(first.state, c, log[1..]);
        assert r == RestoreAll(x, c, log);
        if r.escaped.None? {
          forall q | q in log
            ensures q.commandId in r.state.statuses && IsFinal(r.state.statuses[q.commandId])
          {
            if q != log[0] {
              var i :| 0 <= i < |log| && log[i] == q;
              assert log[1..][i - 1] == q;
            }
          }
        }
      }
    }
  }
}
