/**
 * The `CREATE TABLE ... AS SELECT` statement node: its constructors, the
 * copy that replaces the WITH-clause properties, visitor dispatch, and the
 * sink the statement writes to.
 */
module Ast {
  import opened Wrappers

  datatype NodeLocation = NodeLocation(line: int, charPositionInLine: int)

  /** The SELECT of the statement; its structure is not modelled. */
  datatype Query = Query(text: string)

  /** The WITH clause of a CREATE ... AS SELECT. */
  datatype CreateSourceAsProperties = CreateSourceAsProperties(properties: map<string, string>)

  /** The sink of a statement: name, whether to create it, its properties, and its PARTITION BY. */
  datatype Sink = Sink(name: string, createSink: bool, properties: CreateSourceAsProperties, partitionBy: Option<string>)

  datatype CreateAsSelect =
    | CreateTableAsSelect(location: Option<NodeLocation>, name: string, query: Query, notExists: bool,
                          properties: CreateSourceAsProperties, partitionBy: Option<string>)
    | CreateStreamAsSelect(location: Option<NodeLocation>, name: string, query: Query, notExists: bool,
                           properties: CreateSourceAsProperties, partitionBy: Option<string>)

  /** The five-argument constructor: a table statement never carries a PARTITION BY. */
  function NewCreateTableAsSelectAt(location: Option<NodeLocation>, name: string, query: Query,
                                    notExists: bool, properties: CreateSourceAsProperties): (r: CreateAsSelect)
    ensures r.CreateTableAsSelect? && r.partitionBy.None?
    ensures r.location == location && r.name == name && r.query == query
    ensures r.notExists == notExists && r.properties == properties
  {
    CreateTableAsSelect(location, name, query, notExists, properties, None)
  }

  /** The four-argument constructor: no source location. */
  function NewCreateTableAsSelect(name: string, query: Query, notExists: bool,
                                  properties: CreateSourceAsProperties): (r: CreateAsSelect)
    ensures r.CreateTableAsSelect? && r.location.None? && r.partitionBy.None?
    ensures r.name == name && r.query == query && r.notExists == notExists && r.properties == properties
  {
    NewCreateTableAsSelectAt(None, name, query, notExists, properties)
  }

  /** `copyWith(properties)`: the same table statement with other WITH-clause properties. */
  function CopyWith(s: CreateAsSelect, properties: CreateSourceAsProperties): (r: CreateAsSelect)
    requires s.CreateTableAsSelect?
    ensures r.CreateTableAsSelect? && r.properties == properties
    ensures r.location == s.location && r.name == s.name && r.query == s.query
    ensures r.notExists == s.notExists && r.partitionBy == s.partitionBy
  {
    s.(properties := properties)
  }

  /** `getSink()`: the statement's name, created, with its properties and no PARTITION BY. */
  function GetSink(s: CreateAsSelect): (r: Sink)
    requires s.CreateTableAsSelect?
    ensures r.name == s.name && r.createSink && r.properties == s.properties && r.partitionBy.None?
  {
    Sink(s.name, true, s.properties, None)
  }

  /** The two visitor entries a CREATE ... AS SELECT may be dispatched to. */
  datatype AstVisitor<R, !C> = AstVisitor(
    visitCreateTableAsSelect: (CreateAsSelect, C) -> R,
    visitCreateStreamAsSelect: (CreateAsSelect, C) -> R)

  /** `accept(visitor, context)`. */
  function Accept<R, C>(s: CreateAsSelect, visitor: AstVisitor<R, C>, context: C): (r: R)
    ensures s.CreateTableAsSelect? ==> r == visitor.visitCreateTableAsSelect(s, context)
    ensures s.CreateStreamAsSelect? ==> r == visitor.visitCreateStreamAsSelect(s, context)
  {
    match s
    case CreateTableAsSelect(_, _, _, _, _, _) => visitor.visitCreateTableAsSelect(s, context)
    case CreateStreamAsSelect(_, _, _, _, _, _) => visitor.visitCreateStreamAsSelect(s, context)
  }

  /** Both constructors build the same node when no location is given. */
  lemma FourArgumentsMeansNoLocation(name: string, query: Query, notExists: bool, properties: CreateSourceAsProperties)
    ensures NewCreateTableAsSelect(name, query, notExists, properties)
         == NewCreateTableAsSelectAt(None, name, query, notExists, properties)
  {
  }

  /** The sink of a copy carries the copy's properties; everything else about the sink is unchanged. */
  lemma SinkFollowsCopy(s: CreateAsSelect, properties: CreateSourceAsProperties)
    requires s.CreateTableAsSelect?
    ensures GetSink(CopyWith(s, properties)) == GetSink(s).(properties := properties)
  {
  }

  /** Copying twice keeps only the last properties; copying with the node's own properties is the node. */
  lemma CopyWithLastWins(s: CreateAsSelect, p1: CreateSourceAsProperties, p2: CreateSourceAsProperties)
    requires s.CreateTableAsSelect?
    ensures CopyWith(CopyWith(s, p1), p2) == CopyWith(s, p2)
    ensures CopyWith(s, s.properties) == s
  {
  }
}
