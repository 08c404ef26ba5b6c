/**
 * Payload construction and level dispatch shared by every sink (src/lib/baseLogger.ts).
 * The abstract `output` of the source's class hierarchy is a tagged sink: the test
 * logger's capture buffer or a pino instance.
 */
module BaseLogger {
  import opened Wrappers
  import opened Types
  import opened Values
  import opened FieldProcessing
  import opened TestLogger
  import opened PinoLogger

  /** The serialised debug part of a field map. */
  function SerializedDebug(fields: Fields): (d: Fields)
    ensures d.Keys == DebugPart(fields).Keys
  {
    SerializeErrors(Obj(DebugPart(fields))).props
  }

  /** The payload `log` hands to `output`: the meta part, plus `debug` when the serialised debug part is non-empty. */
  function Payload(fields: Fields): (p: Fields)
    ensures forall k :: k in fields && StartsWithDollar(k) ==> k in p && p[k] == fields[k]
    ensures forall k :: k in p ==> StartsWithDollar(k) || k == "debug"
  {
    assert !StartsWithDollar("debug");
    var debug := SerializedDebug(fields);
    MetaPart(fields) + (if |debug| > 0 then map["debug" := Obj(debug)] else map[])
  }

  /**
   * The `$` keys of the payload are exactly those of the fields, with their values;
   * the only other key is `debug`, present exactly when some field is not `$`-prefixed,
   * and then holding the Error-free serialisation of those fields.
   */
  lemma PayloadShape(fields: Fields)
    ensures forall k :: StartsWithDollar(k) ==> (k in Payload(fields) <==> k in fields)
    ensures forall k :: k in fields && StartsWithDollar(k) ==> Payload(fields)[k] == fields[k]
    ensures forall k :: k in Payload(fields) ==> StartsWithDollar(k) || k == "debug"
    ensures "debug" in Payload(fields) <==> exists k :: k in fields && !StartsWithDollar(k)
    ensures "debug" in Payload(fields) ==>
              && Payload(fields)["debug"] == Obj(SerializedDebug(fields))
              && ErrorFree(Payload(fields)["debug"])
              && forall k :: k in fields && !StartsWithDollar(k) ==>
                   SerializedDebug(fields)[k] == SerializeErrors(fields[k])
  {
    var debug := SerializedDebug(fields);
    assert !StartsWithDollar("debug");
    if exists k :: k in fields && !StartsWithDollar(k) {
      var k :| k in fields && !StartsWithDollar(k);
      assert k in debug;
    }
    if |debug| > 0 {
      var k :| k in debug;
      assert k in DebugPart(fields);
    }
    SerializeErrorsCases(Obj(DebugPart(fields)));
  }

  /** Absent or empty fields give the empty payload. */
  lemma PayloadOfNothing()
    ensures Payload(map[]) == map[]
  {
    assert MetaPart(map[]) == map[];
    assert |SerializedDebug(map[])| == 0;
  }

  /** Fields that are all `$`-prefixed are the payload as they are: no `debug` key at all. */
  lemma PayloadOfMetaOnly(fields: Fields)
    requires forall k :: k in fields ==> StartsWithDollar(k)
    ensures Payload(fields) == fields
  {
    assert DebugPart(fields) == map[];
    assert |SerializedDebug(fields)| == 0;
    assert MetaPart(fields) == fields;
  }

  /** Error-free fields none of which is `$`-prefixed land, unchanged, under `debug`. */
  lemma PayloadOfDebugOnly(fields: Fields)
    requires fields != map[]
    requires forall k :: k in fields ==> !StartsWithDollar(k) && ErrorFree(fields[k])
    ensures Payload(fields) == map["debug" := Obj(fields)]
  {
    assert DebugPart(fields) == fields;
    assert MetaPart(fields) == map[];
    assert ErrorFree(Obj(fields));
    SerializeErrorsIdentity(Obj(fields));
    var k :| k in fields;
    assert k in SerializedDebug(fields);
  }

  /** Where a logger's output goes. */
  datatype Sink = Capture(store: LogStore) | Pino(instance: PinoInstance)

  /** A logger bound to a category and a sink: the source's TestLogger and PinoLogger. */
  class BaseLogger {
    const category: string
    const sink: Sink

    constructor(category: string, sink: Sink)
      ensures this.category == category && this.sink == sink
    {
      this.category := category;
      this.sink := sink;
    }

    /** The objects that receive this logger's output. */
    function Targets(): set<object> {
      match sink
      case Capture(store) => {store}
      case Pino(instance) => {instance}
    }

    /** The entries captured so far (test sink) ... */
    function Captured(): seq<LogEntry>
      reads Targets()
    {
      if sink.Capture? then sink.store.logs else []
    }

    /** ... and the calls made on the backend (pino sink). */
    function Forwarded(): seq<PinoCall>
      reads Targets()
    {
      if sink.Pino? then sink.instance.calls else []
    }

    /** The sink now holds exactly one more record, for this level, message and payload, after those it held. */
    ghost predicate DeliveredOnce(captured: seq<LogEntry>, forwarded: seq<PinoCall>, level: Level, message: string, payload: Fields)
      reads Targets()
    {
      match sink
      case Capture(store) => store.logs == captured + [LogEntry(level, category, message, payload)]
      case Pino(instance) => instance.calls == forwarded + [PinoCall(level, payload, message)]
    }

    /** `output`: TestLogger pushes an entry carrying the category; PinoLogger calls `pino[level](payload, message)`. */
    method Output(level: Level, message: string, payload: Fields)
      modifies Targets()
      ensures DeliveredOnce(old(Captured()), old(Forwarded()), level, message, payload)
    {
      match sink
      case Capture(store) =>
        store.Push(LogEntry(level, category, message, payload));
      case Pino(instance) =>
        instance.Write(level, payload, message);
    }

    /** `log`: separate, serialise the debug part, build the payload and output it once. */
    method Log(level: Level, message: string, fields: Option<Fields>)
      modifies Targets()
      ensures DeliveredOnce(old(Captured()), old(Forwarded()), level, message, Payload(fields.GetOr(map[])))
    {
      var payload := Payload(fields.GetOr(map[]));
      Output(level, message, payload);
    }

    method Trace(message: string, fields: Option<Fields>)
      modifies Targets()
      ensures DeliveredOnce(old(Captured()), old(Forwarded()), Level.Trace, message, Payload(fields.GetOr(map[])))
    {
      Log(Level.Trace, message, fields);
    }

    method Debug(message: string, fields: Option<Fields>)
      modifies Targets()
      ensures DeliveredOnce(old(Captured()), old(Forwarded()), Level.Debug, message, Payload(fields.GetOr(map[])))
    {
      Log(Level.Debug, message, fields);
    }

    method Info(message: string, fields: Option<Fields>)
      modifies Targets()
      ensures DeliveredOnce(old(Captured()), old(Forwarded()), Level.Info, message, Payload(fields.GetOr(map[])))
    {
      Log(Level.Info, message, fields);
    }

    method Warn(message: string, fields: Option<Fields>)
      modifies Targets()
      ensures DeliveredOnce(old(Captured()), old(Forwarded()), Level.Warn, message, Payload(fields.GetOr(map[])))
    {
      Log(Level.Warn, message, fields);
    }

    method Error(message: string, fields: Option<Fields>)
      modifies Targets()
      ensures DeliveredOnce(old(Captured()), old(Forwarded()), Level.Error, message, Payload(fields.GetOr(map[])))
    {
      Log(Level.Error, message, fields);
    }

    method Fatal(message: string, fields: Option<Fields>)
      modifies Targets()
      ensures DeliveredOnce(old(Captured()), old(Forwarded()), Level.Fatal, message, Payload(fields.GetOr(map[])))
    {
      Log(Level.Fatal, message, fields);
    }
  }

  /** A logger factory (`(category) => Logger`): every logger it makes writes to the same sink. */
  method NewLogger(factory: Sink, category: string) returns (logger: BaseLogger)
    ensures fresh(logger) && logger.category == category && logger.sink == factory
  {
    logger := new BaseLogger(category, factory);
  }

  /** `createTestLogger`: a fresh empty buffer and the factory of loggers that all append to it. */
  method CreateTestLogger() returns (factory: Sink, store: LogStore)
    ensures fresh(store) && store.logs == [] && factory == Capture(store)
  {
    store := new LogStore();
    factory := Capture(store);
  }
}
