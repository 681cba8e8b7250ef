# KSQL command execution and query building, in Dafny

This project models the sequential core of a streaming-SQL server (KSQL) and
proves properties of that model. The core consists of:

- **The interactive statement executor.** It applies one logged command at a
  time. For each command it:
  - records PARSING, EXECUTING and a final SUCCESS or ERROR status;
  - runs the legacy pre-version-5 DROP that closes the queries writing to a
    dropped source;
  - checks persistent-query capacity;
  - seeds the query-id generator from the command's offset;
  - starts queries only in EXECUTE mode (not in RESTORE mode);
  - terminates queries by id;
  - runs the deprecated RUN SCRIPT path.

  The engine is an abstract state: a metastore index from each source to the
  queries writing to it, plus the persistent queries with their sink and
  started flag. Every status write and every engine effect is recorded in a
  trace, so ordering can be stated. An engine execution is recorded with the
  query it returned, if any.
- **The stream and table sink builders.** They include the row-stripping
  lambda, which drops the values at the key and implicit column indexes.
- **The projection step (`Selection`).** It builds the mapper and derives the
  output schema from it.
- **The query executor's helpers.** These cover:
  - application ids;
  - the Kafka Streams property map;
  - the comma-string-or-list merge that appends the metric interceptors;
  - the value-only transient schema;
  - the dispatch on what a physical plan built.
- **The stream aggregate builder.** It has an unwindowed build and a windowed
  build with one visitor per window kind, and includes `TimeUnit.toMillis` with
  its truncation and saturation.
- **The plan and AST value types.** These are `TableGroupBy`, `KStreamHolder`,
  `CreateTableAsSelect`, and the LONG-column and STRING timestamp-extraction
  policies, with their `equals`/`hashCode`.

Files (one module each):

| file | module | what |
|---|---|---|
| wrappers.dfy | Wrappers | `Option`, `Result` |
| javalang.dfy | JavaLang | Java `int` wrap-around, the `Objects.hash` fold, `%d` formatting and parsing, `split("\\s*,\\s*")`, exception classes |
| windows.dfy | Windows | window expressions, `TimeUnit.toMillis` |
| schema.dfy | Schema | `LogicalSchema` and its builder |
| runtime.dfy | Runtime | Kafka Streams objects as symbolic terms recording the call that built them |
| plan.dfy | Plan | execution steps, `TableGroupBy`, `KStreamHolder` |
| config.dfy | Config | the configuration the executor and query executor read |
| timestamp_policies.dfy | TimestampPolicies | the two column timestamp policies |
| ast.dfy | Ast | `CreateTableAsSelect` |
| sinks.dfy | Sinks | `StreamSinkBuilder`, `TableSinkBuilder` |
| selection.dfy | Selections | `Selection` and `SelectValueMapper.transform` |
| aggregate.dfy | StreamAggregates | `StreamAggregateBuilder` |
| query_executor.dfy | QueryExecution | `QueryExecutor` helpers |
| commands.dfy | Commands | commands, statuses, statements, the engine state the executor sees |
| statement_executor.dfy | StatementExecution | `InteractiveStatementExecutor` |

Modelling conventions:

- **Collaborators whose code is not part of this model are parameters.** For
  the executor these are:
  - the statement parser, which is built over the engine and is given the
    engine as the legacy drop left it, so a statement can parse only once the
    sources it names exist;
  - the engine's `parse`, `prepare` and `execute`;
  - `overrideBreakingConfigsWithOriginalValues`;
  - the text of the too-many-queries exception;
  - `ExceptionUtil.stackTraceToString`.

  Elsewhere they are `SinkSchemaUtil`, `SelectValueMapperFactory`,
  `AggregateParamsFactory` and the field classes' `hashCode`.
- **Java exceptions are `Exn` values,** with their class and message. A
  `KsqlException` is caught by the executor and becomes an ERROR status. Any
  other exception escapes (`Outcome.escaped`).
- **The executor takes `executeStatement` as a parameter.**
  `HandleCommand` models `handleStatementWithTerminatedQueries` with this
  parameter, so that the status-trace properties hold whatever the statement
  does. `Handle` plugs in the real `ExecuteStatement`.
- **The wall-clock time of `addTimeSuffix` is a parameter.**
- **Where the capacity error is raised.** On the CREATE AS SELECT and
  INSERT INTO path, the capacity error is raised before the generator is
  seeded. After RUN SCRIPT, it is raised with the running count taken after
  the script's queries were closed. Both follow the code.
- **RUN SCRIPT uses two configurations, as the code does.** The statements of
  a legacy script run with the executor's own configuration, not the merged
  one (lines 299-300 of the executor). The merged configuration is used only
  for the capacity check.
- **Kept as the code has them:**
  - `KStreamHolder` checks its arguments in the order stream, key-serde
    factory, schema.
  - The null-schema message reads "shcema".
  - `configure` checks only that the application-server key is present.

## Model

| member | source | states |
|---|---|---|
| StatementExecution.Configure | ksql-rest-app/src/main/java/io/confluent/ksql/rest/server/computation/InteractiveStatementExecutor.java:108-115 | accepted exactly when the streams properties contain `application.server`; otherwise IllegalArgumentException "Need KS application server set"; on success only the configuration changes |
| StatementExecution.GetStatuses | ksql-rest-app/src/main/java/io/confluent/ksql/rest/server/computation/InteractiveStatementExecutor.java:156-158 | a copy with the same commands and the same statuses as the store |
| StatementExecution.GetStatus | ksql-rest-app/src/main/java/io/confluent/ksql/rest/server/computation/InteractiveStatementExecutor.java:164-166 | present exactly when the command has a status, and then it is that status |
| StatementExecution.HandleStatement | ksql-rest-app/src/main/java/io/confluent/ksql/rest/server/computation/InteractiveStatementExecutor.java:126-136 | before `configure`, IllegalStateException "No initialized" with the executor unchanged (no status written); otherwise the command is handled in EXECUTE mode |
| StatementExecution.HandleRestore | ksql-rest-app/src/main/java/io/confluent/ksql/rest/server/computation/InteractiveStatementExecutor.java:138-148 | the same as HandleStatement, in RESTORE mode |
| StatementExecution.HandleCommand | ksql-rest-app/src/main/java/io/confluent/ksql/rest/server/computation/InteractiveStatementExecutor.java:195-225 | only the command's own status changes; a KsqlException never escapes; an escaping exception leaves PARSING or EXECUTING; otherwise the final status is SUCCESS or ERROR and is the last event; a failed parse writes nothing between PARSING and ERROR |
| StatementExecution.AfterParsingStatus | ksql-rest-app/src/main/java/io/confluent/ksql/rest/server/computation/InteractiveStatementExecutor.java:202-208 | the legacy drop's closes come first in the trace and PARSING ("Parsing statement") right after them |
| StatementExecution.Finish | ksql-rest-app/src/main/java/io/confluent/ksql/rest/server/computation/InteractiveStatementExecutor.java:209-224 | EXECUTING, then the statement's engine effects, then SUCCESS with the statement's message or ERROR with the stack trace; a non-Ksql exception leaves EXECUTING |
| StatementExecution.Catch | ksql-rest-app/src/main/java/io/confluent/ksql/rest/server/computation/InteractiveStatementExecutor.java:217-224 | a KsqlException becomes a final ERROR status holding its stack trace; any other exception escapes with the state unchanged |
| StatementExecution.StatusTraceShapes | ksql-rest-app/src/main/java/io/confluent/ksql/rest/server/computation/InteractiveStatementExecutor.java:195-225 | the statuses a command writes are exactly PARSING, EXECUTING, SUCCESS; or PARSING, ERROR; or PARSING, EXECUTING, ERROR; and only PARSING or PARSING, EXECUTING when an exception escapes |
| StatementExecution.FinishStatusKinds | ksql-rest-app/src/main/java/io/confluent/ksql/rest/server/computation/InteractiveStatementExecutor.java:209-224 | after a successful parse the statuses written are EXECUTING then SUCCESS or ERROR, or EXECUTING alone when an exception escapes |
| StatementExecution.LegacyDropBeforeParsing | ksql-rest-app/src/main/java/io/confluent/ksql/rest/server/computation/InteractiveStatementExecutor.java:204-208 | the trace of a command starts with the legacy drop's closes, immediately followed by PARSING |
| StatementExecution.LegacyDrop | ksql-rest-app/src/main/java/io/confluent/ksql/rest/server/computation/InteractiveStatementExecutor.java:375-395 | when the command is pre-version-5, the action is DROP, the type is STREAM or TABLE, and the metastore knows the source, the queries listed for that source are removed; otherwise nothing changes; only existing queries are closed |
| StatementExecution.LegacyDropClosesExactlySinkQueries | ksql-rest-app/src/main/java/io/confluent/ksql/rest/server/computation/InteractiveStatementExecutor.java:375-395 | with a consistent sink index, a legacy drop removes exactly the queries whose sink is the dropped source and keeps every other query unchanged |
| StatementExecution.StartPersistentQuery | ksql-rest-app/src/main/java/io/confluent/ksql/rest/server/computation/InteractiveStatementExecutor.java:323-360 | the capacity check with one extra query comes first; over capacity it fails with a KsqlException and the engine is untouched; otherwise the generator is seeded (if the command asks) before the engine executes with the merged config; on success the engine returned a persistent query, which is started last in EXECUTE mode; only "Statement did not return a query" or an engine exception escapes as non-Ksql |
| StatementExecution.Terminate | ksql-rest-app/src/main/java/io/confluent/ksql/rest/server/computation/InteractiveStatementExecutor.java:366-373 | succeeds with "Query terminated." exactly when the query exists, closing exactly that query; otherwise a KsqlException "No running query with id … was found" with no effect |
| StatementExecution.ExecuteDdl | ksql-rest-app/src/main/java/io/confluent/ksql/rest/server/computation/InteractiveStatementExecutor.java:266-275 | one execution with the command's overrides and the merged config; the message is the engine's command result; an absent result is NoSuchElementException |
| StatementExecution.ExecuteScript | ksql-rest-app/src/main/java/io/confluent/ksql/rest/server/computation/InteractiveStatementExecutor.java:296-304 | each script statement is executed with the command's overrides and the executor's own (unmerged) config; at most one execution per statement, all of them on success; the queries returned are exactly those the traced executions built, in order |
| StatementExecution.FinishScript | ksql-rest-app/src/main/java/io/confluent/ksql/rest/server/computation/InteractiveStatementExecutor.java:306-320 | the capacity check with no extra query; over capacity every query the script built, persistent or transient, is closed in order, the persistent ones leave the engine, and the command fails; otherwise every persistent one is started in EXECUTE mode and none in RESTORE mode |
| StatementExecution.RunLegacyScript | ksql-rest-app/src/main/java/io/confluent/ksql/rest/server/computation/InteractiveStatementExecutor.java:282-321 | no script content: KsqlException "No statements received for LOAD FROM FILE." with no effect; content of another type: ClassCastException with no effect; every execution uses the executor's config; nothing starts in RESTORE mode; the one capacity check follows every execution and counts no extra query; over capacity the queries the traced executions built are closed, in order, and the command fails with the too-many-queries KsqlException; a script that succeeds passed the check |
| StatementExecution.RunStatements | ksql-rest-app/src/main/java/io/confluent/ksql/rest/server/computation/InteractiveStatementExecutor.java:293-320 | the parsed script: the same trace facts as RunLegacyScript (every execution with the executor's config, one capacity check after the executions, over capacity the built queries closed in order and the too-many-queries failure, success only past the check) |
| StatementExecution.ScriptTrace | ksql-rest-app/src/main/java/io/confluent/ksql/rest/server/computation/InteractiveStatementExecutor.java:296-310 | in a trace of executions followed by the script's end, the end's capacity check is the only one; over capacity the effects after it close exactly the queries the executions before it built, in order |
| StatementExecution.ScriptOverCapacityClosesBuilt | ksql-rest-app/src/main/java/io/confluent/ksql/rest/server/computation/InteractiveStatementExecutor.java:293-311 | a script that parses and runs to the end over capacity: the trace is the run's executions, the failed check with no extra query, then one close per query the run returned, in order; the command fails with the too-many-queries KsqlException |
| StatementExecution.ScriptRunsThenFinishes | ksql-rest-app/src/main/java/io/confluent/ksql/rest/server/computation/InteractiveStatementExecutor.java:293-320 | a script that parses and runs to the end has the run's effects followed by the end's as its trace, and the end's engine and result |
| StatementExecution.LegacyScriptFinishExecutesNothing | ksql-rest-app/src/main/java/io/confluent/ksql/rest/server/computation/InteractiveStatementExecutor.java:306-320 | the end of a script executes no statement |
| StatementExecution.ExecuteStatement | ksql-rest-app/src/main/java/io/confluent/ksql/rest/server/computation/InteractiveStatementExecutor.java:236-258 | dispatch on the statement kind; CREATE AS SELECT and INSERT INTO succeed exactly when the query starts, with the "created and running" or "Insert Into" message; any other statement is a KsqlException whose message is the one the code writes, naming the `PreparedStatement` wrapper class (see Findings); nothing starts in RESTORE mode |
| StatementExecution.UnexpectedStatementFails | ksql-rest-app/src/main/java/io/confluent/ksql/rest/server/computation/InteractiveStatementExecutor.java:195-258 | a parsed statement of any unhandled kind ends in ERROR right after EXECUTING, with the stack trace of "Unexpected statement type: io.confluent.ksql.parser.KsqlParser$PreparedStatement", and the engine as the legacy drop left it |
| StatementExecution.UnexpectedStatementMessage | ksql-rest-app/src/main/java/io/confluent/ksql/rest/server/computation/InteractiveStatementExecutor.java:254-257 | the corrected half of the Findings row, not what the code writes: "Unexpected statement type: " followed by the class name of the statement inside the wrapper |
| StatementExecution.UnexpectedStatementMessageDistinguishes | ksql-rest-app/src/main/java/io/confluent/ksql/rest/server/computation/InteractiveStatementExecutor.java:254-257 | with the corrected message, statements of different classes get different messages |
| StatementExecution.AsWrittenMessageNamesNoStatement | ksql-rest-app/src/main/java/io/confluent/ksql/rest/server/computation/InteractiveStatementExecutor.java:254-257 | as written, every unexpected statement gets the same message, which names the wrapper class, not the statement (see Findings) |
| StatementExecution.CreateAsSelectSucceeds | ksql-rest-app/src/main/java/io/confluent/ksql/rest/server/computation/InteractiveStatementExecutor.java:239-244 | a new CREATE AS SELECT whose query is built ends in SUCCESS naming the sink and the query id, and the query is started right before that status |
| StatementExecution.TerminateUnknownQueryFails | ksql-rest-app/src/main/java/io/confluent/ksql/rest/server/computation/InteractiveStatementExecutor.java:248-250 | TERMINATE of an unknown query ends in ERROR with the "No running query" stack trace and leaves the engine unchanged |
| StatementExecution.StartsOnlyThroughStatement | ksql-rest-app/src/main/java/io/confluent/ksql/rest/server/computation/InteractiveStatementExecutor.java:195-225 | the handler itself starts no query: any start comes from the statement |
| StatementExecution.RestoreStartsNothing | ksql-rest-app/src/main/java/io/confluent/ksql/rest/server/computation/InteractiveStatementExecutor.java:138-148 | restoring a command starts no query, whatever the statement |
| StatementExecution.RestoreStepKeepsFinal | ksql-rest-app/src/main/java/io/confluent/ksql/rest/server/computation/InteractiveStatementExecutor.java:138-148 | a restored command that does not escape ends with a final status and keeps other final statuses final |
| StatementExecution.RestoreAllLeavesFinalStatuses | ksql-rest-app/src/main/java/io/confluent/ksql/rest/server/computation/InteractiveStatementExecutor.java:138-148 | replaying a whole log without escape leaves every command of the log SUCCESS or ERROR |
| Commands.CloseAll | ksql-rest-app/src/main/java/io/confluent/ksql/rest/server/computation/InteractiveStatementExecutor.java:389-394 | the remaining queries are those not listed; only listed, existing queries are closed, and every listed existing query is |
| Commands.CloseEach | ksql-rest-app/src/main/java/io/confluent/ksql/rest/server/computation/InteractiveStatementExecutor.java:307 | one close per listed query, in list order; exactly the listed persistent queries leave the engine, and the others keep their state |
| Commands.StartAll | ksql-rest-app/src/main/java/io/confluent/ksql/rest/server/computation/InteractiveStatementExecutor.java:313-319 | every persistent query of the list is started, and only those; no query is added or removed; started flags are never cleared |
| QueryExecution.AddTimeSuffix | ksql-engine/src/main/java/io/confluent/ksql/query/QueryExecutor.java:344-346 | the original, "_", then a decimal that parses back to the time |
| QueryExecution.ApplicationIdLayout | ksql-engine/src/main/java/io/confluent/ksql/query/QueryExecutor.java:312-317 | persistent id = "_confluent-ksql-" + service id + persistent prefix + query id; transient id has the transient prefix and "_" + time |
| QueryExecution.TransientIdsDifferInTime | ksql-engine/src/main/java/io/confluent/ksql/query/QueryExecutor.java:159-163 | transient ids of the same query made at different times differ |
| QueryExecution.PersistentIdsDistinct | ksql-engine/src/main/java/io/confluent/ksql/query/QueryExecutor.java:208-214 | distinct persistent queries get distinct application ids |
| QueryExecution.UpdateListProperty | ksql-engine/src/main/java/io/confluent/ksql/query/QueryExecutor.java:319-342 | succeeds exactly when the key is absent, a string or a list; then the key holds the old entries followed by the value, and other keys are unchanged; otherwise KsqlException "Expecting list or string for property: " + key |
| QueryExecution.UpdateMissingProperty | ksql-engine/src/main/java/io/confluent/ksql/query/QueryExecutor.java:324 | an absent key becomes the one-element list of the value |
| QueryExecution.UpdateCommaSeparatedProperty | ksql-engine/src/main/java/io/confluent/ksql/query/QueryExecutor.java:328-332 | a comma-joined string of class names (with padding around commas) becomes those names followed by the value |
| QueryExecution.UpdateEmptyStringProperty | ksql-engine/src/main/java/io/confluent/ksql/query/QueryExecutor.java:328-332 | an empty string yields an empty entry before the value |
| QueryExecution.BuildStreamsProperties | ksql-engine/src/main/java/io/confluent/ksql/query/QueryExecutor.java:286-310 | the engine's properties plus the application id and the error logger, with the collectors appended to both interceptor lists, and no other key changed; fails exactly when an interceptor property has another type |
| QueryExecution.WithIds | ksql-engine/src/main/java/io/confluent/ksql/query/QueryExecutor.java:290-297 | adds exactly the application id and the query's production-error logger; every other key, and so both interceptor lists, is left as it was |
| QueryExecution.BuildTransientQuerySchema | ksql-engine/src/main/java/io/confluent/ksql/query/QueryExecutor.java:388-394 | no key columns, no implicit columns, exactly the value columns of the full schema |
| QueryExecution.TransientQueueSource | ksql-engine/src/main/java/io/confluent/ksql/query/QueryExecutor.java:258-266 | a stream holder yields its stream, a table holder its change stream, anything else IllegalStateException |
| QueryExecution.GetMaterializationInfo | ksql-engine/src/main/java/io/confluent/ksql/query/QueryExecutor.java:190-195 | present exactly for a table holder that has a materialization builder, and built from it |
| QueryExecution.BuildTransientQuery | ksql-engine/src/main/java/io/confluent/ksql/query/QueryExecutor.java:148-188 | an unexpected build result fails first; succeeds exactly when the source is a stream or table and the interceptor properties are usable; the timed transient id is the application id in the properties; the schema has only value columns |
| QueryExecution.BuildQuery | ksql-engine/src/main/java/io/confluent/ksql/query/QueryExecutor.java:197-249 | succeeds exactly when the interceptor properties are usable; the persistent id is the application id in the properties; materialization only for a table holder with a builder |
| JavaLang.FormatLongRoundTrip | ksql-engine/src/main/java/io/confluent/ksql/query/QueryExecutor.java:345 | `%d` output parses back to the number |
| JavaLang.SplitCommaList | ksql-engine/src/main/java/io/confluent/ksql/query/QueryExecutor.java:332 | no piece holds a comma; a string without a comma is its own single piece; trailing empty pieces are dropped |
| JavaLang.SplitJoinRoundTrip | ksql-engine/src/main/java/io/confluent/ksql/query/QueryExecutor.java:332 | splitting a comma-joined list of clean tokens gives back the tokens |
| JavaLang.HashFoldIsWrappedPolynomial | ksql-execution/src/main/java/io/confluent/ksql/execution/plan/TableGroupBy.java:91 | `Objects.hash` is the 32-bit wrap of the base-31 polynomial over the field hashes |
| Windows.ToMillisIsClampedExact | ksql-streams/src/main/java/io/confluent/ksql/execution/streams/StreamAggregateBuilder.java:232-236 | `toMillis` is the exact millisecond count clamped to the long range: it never wraps |
| Windows.ToMillisMonotone | ksql-streams/src/main/java/io/confluent/ksql/execution/streams/StreamAggregateBuilder.java:270-271 | a longer window never converts to fewer milliseconds |
| StreamAggregates.BuildAggregate | ksql-streams/src/main/java/io/confluent/ksql/execution/streams/StreamAggregateBuilder.java:68-112 | params created once from the source schema, count, registry and calls; the store uses the aggregate schema; the result is the aggregate mapped once by the result mapper, with the result schema and the materialization info |
| StreamAggregates.AggregateMappedOnce | ksql-streams/src/main/java/io/confluent/ksql/execution/streams/StreamAggregateBuilder.java:68-112 | one params call; the aggregate has no window or merger and is stored under the aggregate schema; the result mapper is the single mapper applied, once, and the window-select mapper is never applied |
| StreamAggregates.WindowsFor | ksql-streams/src/main/java/io/confluent/ksql/execution/streams/StreamAggregateBuilder.java:228-280 | hopping: size and advance, each converted by its own unit; tumbling: size only; session: the gap converted by the size unit |
| StreamAggregates.WindowedAggregator | ksql-streams/src/main/java/io/confluent/ksql/execution/streams/StreamAggregateBuilder.java:198-280 | windowed aggregate of the grouped stream with the params' initializer and aggregator; a merger exactly for session windows; serdes from the aggregate schema |
| StreamAggregates.BuildWindowedAggregate | ksql-streams/src/main/java/io/confluent/ksql/execution/streams/StreamAggregateBuilder.java:129-185 | params created once; result mapper applied, then the window-select mapper only when it has selects; result schema, windowed key serdes, materialization info |
| StreamAggregates.WindowSelectAppliedAtMostOnce | ksql-streams/src/main/java/io/confluent/ksql/execution/streams/StreamAggregateBuilder.java:170-184 | the window-select mapper occurs once when it has selects and never otherwise; the result mapper exactly once |
| StreamAggregates.MergerOnlyForSessions | ksql-streams/src/main/java/io/confluent/ksql/execution/streams/StreamAggregateBuilder.java:248-264 | a merger is passed exactly for session windows |
| StreamAggregates.WindowSizesClamped | ksql-streams/src/main/java/io/confluent/ksql/execution/streams/StreamAggregateBuilder.java:232-235 | the sizes handed to Kafka Streams are longs: the exact millisecond counts clamped |
| Selections.AddSelectColumns | ksql-streams/src/main/java/io/confluent/ksql/execution/streams/Selection.java:77-79 | one value column per select, in order, after the existing ones; key columns untouched |
| Selections.OutputKeyColumns | ksql-streams/src/main/java/io/confluent/ksql/execution/streams/Selection.java:72-73 | the source key columns without alias, whether or not the source is aliased |
| Selections.BuildSchema | ksql-streams/src/main/java/io/confluent/ksql/execution/streams/Selection.java:66-83 | keys are the source keys without alias; exactly one value column per select, with its name and type, in order; implicit columns kept |
| Selections.Of | ksql-streams/src/main/java/io/confluent/ksql/execution/streams/Selection.java:38-64 | the mapper's logger pushes "PROJECT" on the query context, and the schema is built from that same mapper |
| Selections.Transform | ksql-streams/src/test/java/io/confluent/ksql/execution/streams/SelectValueMapperTest.java:72-90 | null row to null; otherwise one value per select, in order |
| Selections.OutputKeyUnaliased | ksql-streams/src/main/java/io/confluent/ksql/execution/streams/Selection.java:72-75 | output keys keep the source keys' names and types and carry no alias |
| Selections.RowsMatchSchema | ksql-streams/src/main/java/io/confluent/ksql/execution/streams/Selection.java:54-63 | every row the mapper produces has one value per value column of the schema, the i-th computed for the column named by the i-th select |
| Selections.ThreeSelectsExample | ksql-streams/src/test/java/io/confluent/ksql/execution/streams/SelectValueMapperTest.java:72-90 | selects evaluating to 100, 200, 300 give (100, 200, 300); a null row gives null |
| Sinks.KeptIndexes | ksql-streams/src/main/java/io/confluent/ksql/execution/streams/StreamSinkBuilder.java:65-69 | exactly the indexes below n that are not excluded, ascending |
| Sinks.StripRow | ksql-streams/src/main/java/io/confluent/ksql/execution/streams/StreamSinkBuilder.java:60-70 | null stays null; otherwise the values at kept indexes, in order |
| Sinks.StrippedLength | ksql-streams/src/main/java/io/confluent/ksql/execution/streams/StreamSinkBuilder.java:65-69 | the output is shorter by the number of excluded indexes inside the row |
| Sinks.StrippedNothingExcluded | ksql-streams/src/main/java/io/confluent/ksql/execution/streams/StreamSinkBuilder.java:65-69 | with no excluded index inside the row, the row is unchanged |
| Sinks.StrippedKeepsEveryKeptValue | ksql-streams/src/main/java/io/confluent/ksql/execution/streams/StreamSinkBuilder.java:64-70 | every value at a kept index appears, at the position given by the kept indexes before it |
| Sinks.BuildStreamSink | ksql-streams/src/main/java/io/confluent/ksql/execution/streams/StreamSinkBuilder.java:38-72 | indexes from the holder schema; serdes over `sinkSchema(holder schema)`; key serde from the holder's factory; output to the sink's topic |
| Sinks.BuildTableSink | ksql-streams/src/main/java/io/confluent/ksql/execution/streams/TableSinkBuilder.java:38-73 | the table's change stream is stripped with indexes from the holder schema and written to the sink's topic with the holder's key serde factory |
| Sinks.TableSinkIsStreamSinkOfChanges | ksql-streams/src/main/java/io/confluent/ksql/execution/streams/TableSinkBuilder.java:59-72 | a table sink is the stream sink of the table's change stream |
| Plan.NewTableGroupBy | ksql-execution/src/main/java/io/confluent/ksql/execution/plan/TableGroupBy.java:39-42 | built exactly when no field is null, holding the arguments; otherwise NullPointerException naming the first null field |
| Plan.Sources | ksql-execution/src/main/java/io/confluent/ksql/execution/plan/TableGroupBy.java:52-54 | a group-by's sources are exactly [source]; every source is a strict part of the step |
| Plan.Build | ksql-execution/src/main/java/io/confluent/ksql/execution/plan/TableGroupBy.java:69-71 | a group-by is handed, itself, to `visitTableGroupBy` |
| Plan.TableGroupByEquals | ksql-execution/src/main/java/io/confluent/ksql/execution/plan/TableGroupBy.java:74-86 | equal exactly to a group-by with the same four fields; never to null or another class |
| Plan.TableGroupByEqualsSymmetric | ksql-execution/src/main/java/io/confluent/ksql/execution/plan/TableGroupBy.java:74-86 | equality is symmetric |
| Plan.TableGroupByHashClosedForm | ksql-execution/src/main/java/io/confluent/ksql/execution/plan/TableGroupBy.java:89-92 | the hash is the 32-bit value of 31^4 + 31^3 p + 31^2 s + 31 f + g over the four field hashes |
| Plan.TableGroupByHashConsistent | ksql-execution/src/main/java/io/confluent/ksql/execution/plan/TableGroupBy.java:89-92 | equal nodes hash equally |
| Plan.NewKStreamHolder | ksql-execution/src/main/java/io/confluent/ksql/execution/plan/KStreamHolder.java:28-36 | built exactly when nothing is null, and the getters return the arguments; otherwise NullPointerException, stream checked first, then the key-serde factory |
| Plan.WithStream | ksql-execution/src/main/java/io/confluent/ksql/execution/plan/KStreamHolder.java:46-50 | the new stream and schema with the same key-serde factory |
| Plan.WithStreamTwice | ksql-execution/src/main/java/io/confluent/ksql/execution/plan/KStreamHolder.java:46-50 | replacing the stream twice equals replacing it once with the last |
| Plan.WithStreamOwnFields | ksql-execution/src/main/java/io/confluent/ksql/execution/plan/KStreamHolder.java:46-50 | rebuilding a holder from its own stream and schema gives the same holder |
| Ast.NewCreateTableAsSelectAt | ksql-parser/src/main/java/io/confluent/ksql/parser/tree/CreateTableAsSelect.java:36-44 | a table statement with the arguments and no PARTITION BY |
| Ast.NewCreateTableAsSelect | ksql-parser/src/main/java/io/confluent/ksql/parser/tree/CreateTableAsSelect.java:27-34 | a table statement without location or PARTITION BY |
| Ast.FourArgumentsMeansNoLocation | ksql-parser/src/main/java/io/confluent/ksql/parser/tree/CreateTableAsSelect.java:27-34 | the four-argument constructor equals the five-argument one with no location |
| Ast.CopyWith | ksql-parser/src/main/java/io/confluent/ksql/parser/tree/CreateTableAsSelect.java:46-56 | still a table statement, with the new properties and every other field kept |
| Ast.CopyWithLastWins | ksql-parser/src/main/java/io/confluent/ksql/parser/tree/CreateTableAsSelect.java:53-56 | copying twice keeps the last properties; copying with its own properties is the identity |
| Ast.GetSink | ksql-parser/src/main/java/io/confluent/ksql/parser/tree/CreateTableAsSelect.java:63-66 | the statement's name, created, with its properties and no PARTITION BY |
| Ast.SinkFollowsCopy | ksql-parser/src/main/java/io/confluent/ksql/parser/tree/CreateTableAsSelect.java:53-66 | the sink of a copy differs from the original's only in its properties |
| Ast.Accept | ksql-parser/src/main/java/io/confluent/ksql/parser/tree/CreateTableAsSelect.java:58-61 | a table statement goes to `visitCreateTableAsSelect` |
| TimestampPolicies.NewLongColumnPolicy | ksql-common/src/main/java/io/confluent/ksql/util/timestamp/LongColumnTimestampExtractionPolicy.java:29-33 | built exactly for a non-null field, which the getter returns; otherwise NullPointerException "timestampField can't be null" |
| TimestampPolicies.NewStringPolicy | ksql-common/src/main/java/io/confluent/ksql/util/timestamp/StringTimestampExtractionPolicy.java:31-38 | built exactly when field and format are non-null; the field is checked first |
| TimestampPolicies.Create | ksql-common/src/main/java/io/confluent/ksql/util/timestamp/StringTimestampExtractionPolicy.java:40-43 | an extractor of the policy's own kind on the given column, with the policy's format for strings |
| TimestampPolicies.LongColumnEquals | ksql-common/src/main/java/io/confluent/ksql/util/timestamp/LongColumnTimestampExtractionPolicy.java:50-61 | equal exactly to a LONG-column policy with an equal field |
| TimestampPolicies.StringEquals | ksql-common/src/main/java/io/confluent/ksql/util/timestamp/StringTimestampExtractionPolicy.java:55-67 | equal exactly to a STRING policy with an equal field and format |
| TimestampPolicies.PolicyHash | ksql-common/src/main/java/io/confluent/ksql/util/timestamp/StringTimestampExtractionPolicy.java:50-53 | `Objects.hash` of the field (and format): the 32-bit values of 31 + h(field) and 961 + 31 h(field) + h(format) |
| JavaLang.StringHashCode | ksql-common/src/main/java/io/confluent/ksql/util/timestamp/StringTimestampExtractionPolicy.java:50-53 | `String.hashCode` of the format: the 32-bit wrap of the base-31 polynomial of its UTF-16 code units |
| JavaLang.Utf16 | ksql-common/src/main/java/io/confluent/ksql/util/timestamp/StringTimestampExtractionPolicy.java:50-53 | a character below U+10000 is one code unit, its own value; any other is a high surrogate then a low surrogate that decode back to it |
| JavaLang.CodeUnitsOfBmp | ksql-common/src/main/java/io/confluent/ksql/util/timestamp/StringTimestampExtractionPolicy.java:50-53 | for a string in the Basic Multilingual Plane the code units are the characters themselves |
| JavaLang.SupplementaryCharacterHash | ksql-common/src/main/java/io/confluent/ksql/util/timestamp/StringTimestampExtractionPolicy.java:50-53 | U+1F600 is the surrogate pair D83D, DE00 and hashes to 31 * 0xD83D + 0xDE00 = 1772899 |
| TimestampPolicies.HashConsistentWithEquals | ksql-common/src/main/java/io/confluent/ksql/util/timestamp/LongColumnTimestampExtractionPolicy.java:45-61 | equal policies hash equally |
| TimestampPolicies.KindsNeverEqual | ksql-common/src/main/java/io/confluent/ksql/util/timestamp/StringTimestampExtractionPolicy.java:60-62 | a LONG-column policy never equals a STRING policy, either way round |
| TimestampPolicies.StringPolicyFormatMatters | ksql-common/src/main/java/io/confluent/ksql/util/timestamp/StringTimestampExtractionPolicy.java:65-66 | same field: equal exactly when the formats are equal |
| TimestampPolicies.LongColumnEqualityGroups | ksql-common/src/test/java/io/confluent/ksql/util/timestamp/LongColumnTimestampExtractionPolicyTest.java:24-32 | two policies on field1 are equal both ways; a policy on field2 equals neither; none equals null or another class |

## Left out

- Kafka Streams objects (`KafkaStreams`, `StreamsBuilder`, `Topology`, streams, tables, serdes, `Materialized`, windows) are symbolic terms that record how they were built. Window assignment and session merging happen inside Kafka Streams and are not modelled.
- Statement parsing, the engine's `parse`/`prepare`/`execute`, `overrideBreakingConfigsWithOriginalValues`, `SinkSchemaUtil`, `SelectValueMapperFactory`, `AggregateParamsFactory`, `QueryCapacityUtil`'s message text and `ExceptionUtil.stackTraceToString` are not part of this model; they are function parameters. The capacity check is the predicate running + extra > limit.
- `System.currentTimeMillis` is the parameter `now` of `AddTimeSuffix`.
- QueryExecution.AddTimeSuffix: `String.format("%s_%d", ...)` formats with the JVM's default locale; the model writes ASCII digits '0' to '9', as a locale whose zero digit is '0' does, and does not model locales with other digits (for example Thai digits).
- JavaLang.FormatLongRoundTrip: the round trip is about ASCII decimal digits only, the output of `%d` under a locale whose zero digit is '0'; other locales' digits are not modelled.
- The status store is a plain map written sequentially: the `ConcurrentHashMap` and the `CommandStatusFuture` signalling are left out; the future's "final" marking is kept as a flag on each status write.
- The metastore's sink index is not updated when a query closes: what the engine does to its catalogue on close is not part of this model.
- The `this == o` shortcut of the `equals` methods is not modelled separately: an object always has equal fields to itself, so the field comparison gives the same answer.
- StatementExecution.RunLegacyScript: the ClassCastException for a non-string script property is stated by class only, its message text (produced by the JVM) is not modelled.
- QueryExecution.UpdateListProperty: only lists of class-name strings are modelled. A property holding a Java `List` of other elements (for example `Class` objects) is an `OtherValue` in the model and fails with "Expecting list or string for property", where the source copies it and appends. The same holds for `BuildStreamsProperties`, `BuildQuery` and `BuildTransientQuery`, which use it for the interceptor lists.
- StatementExecution.RestoreAll: the loop that feeds the log to `handleRestore` is not part of this model's source; it is modelled as stopping at the first exception that escapes.
- Materialization providers, `GenericKeySerDe`, the processing log and metrics, the Jackson annotations and `KafkaStreams` exception handlers are left out.
- `KGroupedTableHolder` (an opaque handle and a schema), `TableRow` (an interface), `WindowEndKudaf` (a placeholder without logic), `TemporaryEngine` (a test fixture) and `QueryTest` (tests `Query`, which is not part of this model) are not modelled.
- The transient query's queue, limit handler and close callback are not modelled beyond the queue's source stream and the limit.

## Findings

| source | as written | input that shows it | evidently intended | confidence | as-written member | corrected member |
|---|---|---|---|---|---|---|
| ksql-rest-app/src/main/java/io/confluent/ksql/rest/server/computation/InteractiveStatementExecutor.java:254-257 | the message of an unexpected statement formats `statement.getClass().getName()`, the class of the `PreparedStatement` wrapper | a parsed `LIST TOPICS;` reaching `executeStatement` gets "Unexpected statement type: io.confluent.ksql.parser.KsqlParser$PreparedStatement", the same as every other unexpected statement | format the class of `statement.getStatement()`, naming the statement that was not expected | medium, not executed | StatementExecution.AsWrittenMessageNamesNoStatement | StatementExecution.UnexpectedStatementMessageDistinguishes |

The executor model keeps the message as the code writes it (`ExecuteStatement` uses `UnexpectedStatementMessageAsWritten`), so the ERROR statuses it records are the ones the program records. The corrected message, `UnexpectedStatementMessage`, is stated beside it with the property the fix would give.
