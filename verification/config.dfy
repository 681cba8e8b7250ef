/** The engine configuration the modelled code reads. */
module Config {

  /** A value of a Kafka Streams property, by its Java runtime type. */
  datatype Prop =
    | Text(text: string)                 // java.lang.String
    | TextList(items: seq<string>)       // a java.util.List of class names
    | ProcessingLogger(name: string)     // the production-error logger object
    | NullValue                          // a key mapped to null
    | OtherValue(className: string)      // any other type

  /**
   * `KsqlConfig`: the Kafka Streams properties it hands out
   * (`getKsqlStreamConfigProps`), the string settings read by the query
   * executor, and the active persistent query limit.
   */
  datatype KsqlConfig = KsqlConfig(
    streamConfigProps: map<string, Prop>,
    serviceId: string,                   // ksql.service.id
    persistentQueryPrefix: string,       // ksql.persistent.prefix
    transientQueryPrefix: string,        // ksql.transient.prefix
    activePersistentQueryLimit: int)     // ksql.query.persistent.active.limit

  /** `StreamsConfig.APPLICATION_SERVER_CONFIG`. */
  const APPLICATION_SERVER_CONFIG: string := "application.server"
}
