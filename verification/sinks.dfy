/**
 * The stream and table sink builders: the row-stripping lambda that drops
 * the values at the key and implicit column indexes before a row is written,
 * and the wiring of the output (`mapValues` then `to`) with its serdes.
 */
module Sinks {
  import opened Wrappers
  import opened Schema
  import opened Runtime
  import opened Plan

  // ---------------------------------------------------------------------------
  // Reference: which columns survive
  // ---------------------------------------------------------------------------

  /** The positions in `[0, n)` that are not excluded, in ascending order. */
  function KeptIndexes(n: nat, excluded: set<int>): (r: seq<nat>)
    ensures |r| <= n
    ensures forall k :: 0 <= k < |r| ==> r[k] < n && r[k] !in excluded
    ensures forall k, l :: 0 <= k < l < |r| ==> r[k] < r[l]
    ensures forall i :: 0 <= i < n && i !in excluded ==> i in r
  {
    if n == 0 then []
    else KeptIndexes(n - 1, excluded) + (if n - 1 in excluded then [] else [n - 1])
  }

  /** The excluded positions that name a column of an `n`-column row. */
  function InRange(excluded: set<int>, n: nat): set<int>
  {
    set i | i in excluded && 0 <= i < n
  }

  /** The row a sink writes: the values at the kept positions, in their original order. */
  function Stripped<V>(cols: seq<V>, excluded: set<int>): (r: seq<V>)
  {
    var kept := KeptIndexes(|cols|, excluded);
    seq(|kept|, k requires 0 <= k < |kept| => cols[kept[k]])
  }

  // ---------------------------------------------------------------------------
  // The lambda
  // ---------------------------------------------------------------------------

  /**
   * The `mapValues` lambda of both sink builders: a null row stays null;
   * otherwise every value whose index is not excluded is copied, in order.
   */
  method StripRow<V>(row: Option<seq<V>>, excluded: set<int>) returns (out: Option<seq<V>>)
    ensures row.None? <==> out.None?
    ensures row.Some? ==> out.value == Stripped(row.value, excluded)
  {
    if row.None? {
      return None;
    }
    var cols := row.value;
    var columns: seq<V> := [];
    var i := 0;
    while i < |cols|
      invariant 0 <= i <= |cols|
      invariant columns == Stripped(cols[..i], excluded)
    {
      StrippedSnoc(cols[..i + 1], excluded);
      assert cols[..i + 1][..i] == cols[..i];
      if i !in excluded {
        columns := columns + [cols[i]];
      }
      i := i + 1;
    }
    assert cols[..i] == cols;
    return Some(columns);
  }

  /** Stripping a row one value longer appends that value exactly when its index is kept. */
  lemma StrippedSnoc<V>(cols: seq<V>, excluded: set<int>)
    requires |cols| > 0
    ensures var n := |cols| - 1;
            Stripped(cols, excluded)
            == Stripped(cols[..n], excluded) + (if n in excluded then [] else [cols[n]])
  {
    var n := |cols| - 1;
    var prefix := KeptIndexes(n, excluded);
    var kept := KeptIndexes(|cols|, excluded);
    assert kept == prefix + (if n in excluded then [] else [n]);
    var lhs := Stripped(cols, excluded);
    var rhs := Stripped(cols[..n], excluded) + (if n in excluded then [] else [cols[n]]);
    assert |lhs| == |rhs|;
    forall k | 0 <= k < |lhs| ensures lhs[k] == rhs[k] {
      if k < |prefix| {
        assert kept[k] == prefix[k];
      }
    }
  }

  // ---------------------------------------------------------------------------
  // Properties of the stripped row
  // ---------------------------------------------------------------------------

  lemma {:induction false} KeptIndexesCount(n: nat, excluded: set<int>)
    ensures |KeptIndexes(n, excluded)| == n - |InRange(excluded, n)|
  {
    if n > 0 {
      KeptIndexesCount(n - 1, excluded);
      if n - 1 in excluded {
        assert InRange(excluded, n) == InRange(excluded, n - 1) + {n - 1};
      } else {
        assert InRange(excluded, n) == InRange(excluded, n - 1);
      }
    }
  }

  /** The written row is shorter by the number of excluded indexes that name a column. */
  lemma StrippedLength<V>(cols: seq<V>, excluded: set<int>)
    ensures |Stripped(cols, excluded)| == |cols| - |InRange(excluded, |cols|)|
  {
    KeptIndexesCount(|cols|, excluded);
  }

  lemma {:induction false} KeptIndexesAll(n: nat, excluded: set<int>)
    requires InRange(excluded, n) == {}
    ensures KeptIndexes(n, excluded) == seq(n, i requires 0 <= i < n => i)
  {
    if n > 0 {
      assert n - 1 !in excluded by {
        assert n - 1 !in InRange(excluded, n);
      }
      assert InRange(excluded, n - 1) == {} by {
        assert InRange(excluded, n - 1) <= InRange(excluded, n);
      }
      KeptIndexesAll(n - 1, excluded);
      var all := seq(n, i requires 0 <= i < n => i);
      assert all == seq(n - 1, i requires 0 <= i < n - 1 => i) + [n - 1];
    }
  }

  /** With no index naming a column, the row is written unchanged. */
  lemma StrippedNothingExcluded<V>(cols: seq<V>, excluded: set<int>)
    requires InRange(excluded, |cols|) == {}
    ensures Stripped(cols, excluded) == cols
  {
    KeptIndexesAll(|cols|, excluded);
  }

  /**
   * Every value at a kept index appears in the written row, and its position
   * there is the number of kept indexes before it: the relative order of the
   * kept values is the original one.
   */
  lemma StrippedKeepsEveryKeptValue<V>(cols: seq<V>, excluded: set<int>, i: nat)
    requires i < |cols| && i !in excluded
    ensures exists k :: 0 <= k < |Stripped(cols, excluded)|
              && KeptIndexes(|cols|, excluded)[k] == i && Stripped(cols, excluded)[k] == cols[i]
  {
    var kept := KeptIndexes(|cols|, excluded);
    assert i in kept;
    var k :| 0 <= k < |kept| && kept[k] == i;
    assert Stripped(cols, excluded)[k] == cols[i];
  }

  // ---------------------------------------------------------------------------
  // The builders
  // ---------------------------------------------------------------------------

  /** `SinkSchemaUtil`, which is not part of this model. */
  datatype SinkSchemaUtil = SinkSchemaUtil(
    sinkSchema: LogicalSchema -> LogicalSchema,
    implicitAndKeyColumnIndexesInValueSchema: LogicalSchema -> set<int>)

  /** The serdes a sink builder derives from the holder's schema and the sink's formats. */
  function SinkKeySerde(factory: KeySerdeFactory, schema: LogicalSchema, formats: Formats,
                        ctx: QueryContext, util: SinkSchemaUtil): KeySerde
  {
    KeySerde(factory, formats.keyFormat, PhysicalSchema(util.sinkSchema(schema), formats.options), ctx)
  }

  function SinkValueSerde(schema: LogicalSchema, formats: Formats, ctx: QueryContext, util: SinkSchemaUtil): ValueSerde
  {
    ValueSerde(formats.valueFormat, PhysicalSchema(util.sinkSchema(schema), formats.options), ctx)
  }

  /** `StreamSinkBuilder.build`. */
  function BuildStreamSink(stream: KStreamHolder, sink: ExecutionStep, util: SinkSchemaUtil): (r: SinkOutput)
    requires sink.StreamSink?
    ensures r.stream == MappedStream(stream.stream, StripIndexes(util.implicitAndKeyColumnIndexesInValueSchema(stream.schema)))
    ensures r.topic == sink.topicName
    ensures r.keySerde.factory == stream.keySerdeFactory && r.keySerde.format == sink.formats.keyFormat
    ensures r.keySerde.schema == r.valueSerde.schema == PhysicalSchema(util.sinkSchema(stream.schema), sink.formats.options)
    ensures r.keySerde.context == r.valueSerde.context == sink.properties.queryContext
    ensures r.valueSerde.format == sink.formats.valueFormat
  {
    var ctx := sink.properties.queryContext;
    var keySerde := SinkKeySerde(stream.keySerdeFactory, stream.schema, sink.formats, ctx, util);
    var valueSerde := SinkValueSerde(stream.schema, sink.formats, ctx, util);
    var excluded := util.implicitAndKeyColumnIndexesInValueSchema(stream.schema);
    SinkOutput(MappedStream(stream.stream, StripIndexes(excluded)), sink.topicName, keySerde, valueSerde)
  }

  /** `TableSinkBuilder.build`: the table's change stream is stripped and written. */
  function BuildTableSink(table: KTableHolder, sink: ExecutionStep, util: SinkSchemaUtil): (r: SinkOutput)
    requires sink.TableSink?
    ensures r.stream.MappedStream? && r.stream.stream == TableChanges(table.table)
    ensures r.stream.mapper == StripIndexes(util.implicitAndKeyColumnIndexesInValueSchema(table.schema))
    ensures r.topic == sink.topicName && r.keySerde.factory == table.keySerdeFactory
  {
    var ctx := sink.properties.queryContext;
    var keySerde := SinkKeySerde(table.keySerdeFactory, table.schema, sink.formats, ctx, util);
    var valueSerde := SinkValueSerde(table.schema, sink.formats, ctx, util);
    var excluded := util.implicitAndKeyColumnIndexesInValueSchema(table.schema);
    SinkOutput(MappedStream(TableChanges(table.table), StripIndexes(excluded)), sink.topicName, keySerde, valueSerde)
  }

  /**
   * A table sink is exactly the stream sink of the table's change stream,
   * with the table holder's schema and key-serde factory and the same sink fields.
   */
  lemma TableSinkIsStreamSinkOfChanges(table: KTableHolder, sink: ExecutionStep, util: SinkSchemaUtil)
    requires sink.TableSink?
    ensures BuildTableSink(table, sink, util)
         == BuildStreamSink(KStreamHolder(TableChanges(table.table), table.keySerdeFactory, table.schema),
                            StreamSink(sink.properties, sink.source, sink.formats, sink.topicName), util)
  {
  }
}
