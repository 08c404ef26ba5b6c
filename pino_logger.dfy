/**
 * The pino side of the library (src/lib/pinoLogger.ts): the backend instance,
 * reduced to the settings the library chooses and the calls it is handed, and
 * the pretty-mode formatter.
 */
module PinoLogger {
  import opened Wrappers
  import opened Types
  import opened Values

  /** One transport target handed through to pino. */
  datatype TransportTarget = TransportTarget(target: string)

  /** Where an instance writes: plain stdout, pino-pretty (hiding `$` keys or not), or transports. */
  datatype Destination = Stdout | PrettyStdout(hideMetadata: bool) | Transports(targets: seq<TransportTarget>)

  /** One `pino[level](payload, message)` call. */
  datatype PinoCall = PinoCall(level: Level, payload: Fields, message: string)

  /** A pino instance: its threshold level and destination, and the calls made on it. */
  class PinoInstance {
    const level: Level
    const destination: Destination
    var calls: seq<PinoCall>

    constructor(level: Level, destination: Destination)
      ensures this.level == level && this.destination == destination && calls == []
    {
      this.level := level;
      this.destination := destination;
      calls := [];
    }

    /** `pino[level](payload, message)`: what the backend does with it is outside this model. */
    method Write(level: Level, payload: Fields, message: string)
      modifies this
      ensures calls == old(calls) + [PinoCall(level, payload, message)]
    {
      calls := calls + [PinoCall(level, payload, message)];
    }
  }

  /** `createPinoInstance`: level defaults to info, pretty to "stdout is a terminal"; pretty mode hides metadata unless asked not to. */
  method CreatePinoInstance(level: Option<Level>, pretty: Option<bool>, showMetadata: Option<bool>, stdoutIsTTY: bool)
    returns (p: PinoInstance)
    ensures fresh(p) && p.calls == []
    ensures p.level == level.GetOr(Info)
    ensures p.destination == if pretty.GetOr(stdoutIsTTY) then PrettyStdout(!showMetadata.GetOr(false)) else Stdout
  {
    var usePretty := pretty.GetOr(stdoutIsTTY);
    if usePretty {
      p := new PinoInstance(level.GetOr(Info), PrettyStdout(!showMetadata.GetOr(false)));
    } else {
      p := new PinoInstance(level.GetOr(Info), Stdout);
    }
  }

  /** `createPinoLoggerWithTransports`: an instance over the given targets at the given level. */
  method CreatePinoWithTransports(targets: seq<TransportTarget>, level: Level) returns (p: PinoInstance)
    ensures fresh(p) && p.calls == [] && p.level == level && p.destination == Transports(targets)
  {
    p := new PinoInstance(level, Transports(targets));
  }

  /** The keys pino writes itself, which flattening must not overwrite. */
  const ReservedKeys: set<string> := {"level", "time", "msg", "pid", "hostname", "name", "v"}

  function DigitChar(d: nat): char
    requires d < 10
  {
    "0123456789"[d]
  }

  /** The decimal spelling of an array index. */
  function Decimal(n: nat): string
    decreases n
  {
    if n < 10 then [DigitChar(n)] else Decimal(n / 10) + [DigitChar(n % 10)]
  }

  function ArrayEntries(s: seq<Value>): map<string, Value> {
    if s == [] then map[] else ArrayEntries(s[..|s| - 1])[Decimal(|s| - 1) := s[|s| - 1]]
  }

  /** `Object.entries` of an object value (an Error is taken to have no enumerable own properties). */
  function Entries(v: Value): map<string, Value> {
    match v
    case Obj(props) => props
    case Arr(elems) => ArrayEntries(elems)
    case _ => map[]
  }

  /** The record has a `debug` value that is a (truthy) object. */
  predicate HasDebugObject(obj: Fields) {
    "debug" in obj && IsObject(obj["debug"])
  }

  /** The entries of that `debug` object, if there is one. */
  function DebugEntries(obj: Fields): Fields {
    if HasDebugObject(obj) then Entries(obj["debug"]) else map[]
  }

  function ReservedPart(entries: Fields): Fields {
    map k | k in entries && k in ReservedKeys :: entries[k]
  }

  function LiftedPart(entries: Fields): Fields {
    map k | k in entries && k !in ReservedKeys :: entries[k]
  }

  /** A top-level key copied as it is: not `$`-prefixed, and not the `debug` object being flattened. */
  predicate Copied(obj: Fields, k: string) {
    k in obj && !StartsWithDollar(k) && !(k == "debug" && HasDebugObject(obj))
  }

  /** A key of the `debug` object that is lifted to the top level. */
  predicate Lifted(obj: Fields, k: string) {
    k in DebugEntries(obj) && k !in ReservedKeys
  }

  /** The `debug` object holds at least one reserved key, which stays nested. */
  predicate NestsReserved(obj: Fields) {
    |ReservedPart(DebugEntries(obj))| > 0
  }

  /**
   * `out` is `filtered` with the non-reserved entries written over it and, when
   * some entry is reserved, those entries written under `debug` last.
   */
  ghost predicate Flattened(entries: Fields, filtered: Fields, out: Fields) {
    && (forall k :: k in out <==>
          k in filtered || (k in entries && k !in ReservedKeys) || (k == "debug" && |ReservedPart(entries)| > 0))
    && (|ReservedPart(entries)| > 0 ==> out["debug"] == Obj(ReservedPart(entries)))
    && (forall k :: k in entries && k !in ReservedKeys && !(k == "debug" && |ReservedPart(entries)| > 0) ==>
          out[k] == entries[k])
    && (forall k :: k in filtered && (k !in entries || k in ReservedKeys) && !(k == "debug" && |ReservedPart(entries)| > 0) ==>
          out[k] == filtered[k])
  }

  /** Flatten one `debug` object into `filtered`: lifted keys overwrite, reserved keys gather under `debug`. */
  method FlattenDebug(entries: Fields, filtered: Fields) returns (out: Fields)
    ensures Flattened(entries, filtered, out)
  {
    var lifted: Fields := map[];
    var reserved: Fields := map[];
    var todo := entries.Keys;
    while todo != {}
      invariant todo <= entries.Keys
      invariant forall k :: k in reserved <==> k in entries && k !in todo && k in ReservedKeys
      invariant forall k :: k in lifted <==> k in entries && k !in todo && k !in ReservedKeys
      invariant forall k :: k in reserved ==> reserved[k] == entries[k]
      invariant forall k :: k in lifted ==> lifted[k] == entries[k]
      decreases todo
    {
      var key :| key in todo;
      if key in ReservedKeys {
        reserved := reserved[key := entries[key]];
      } else {
        lifted := lifted[key := entries[key]];
      }
      todo := todo - {key};
    }
    assert reserved == ReservedPart(entries);
    assert lifted == LiftedPart(entries);
    out := filtered + lifted;
    if |reserved| > 0 {
      out := out["debug" := Obj(reserved)];
    }
  }

  /** Where the value under key `k` of the formatted record may come from, once the keys in `done` are processed. */
  ghost predicate Allowed(obj: Fields, done: set<string>, k: string, v: Value) {
    || (k in done && Copied(obj, k) && v == obj[k])
    || ("debug" in done && Lifted(obj, k) && !(k == "debug" && NestsReserved(obj)) && v == DebugEntries(obj)[k])
    || ("debug" in done && k == "debug" && NestsReserved(obj) && v == Obj(ReservedPart(DebugEntries(obj))))
  }

  ghost predicate Produced(obj: Fields, done: set<string>, r: Fields) {
    && (forall k :: k in r <==>
          (k in done && Copied(obj, k)) || ("debug" in done && (Lifted(obj, k) || (k == "debug" && NestsReserved(obj)))))
    && (forall k :: k in r ==> Allowed(obj, done, k, r[k]))
  }

  lemma ProducedSkip(obj: Fields, done: set<string>, r: Fields, key: string)
    requires Produced(obj, done, r) && key in obj && StartsWithDollar(key)
    ensures Produced(obj, done + {key}, r)
  {
    assert key != "debug";
  }

  lemma ProducedCopy(obj: Fields, done: set<string>, r: Fields, key: string)
    requires Produced(obj, done, r) && Copied(obj, key)
    ensures Produced(obj, done + {key}, r[key := obj[key]])
  {
    var r' := r[key := obj[key]];
    var done' := done + {key};
    forall k | k in r' ensures Allowed(obj, done', k, r'[k]) {
      if k != key {
        assert Allowed(obj, done, k, r[k]);
      }
    }
  }

  lemma ProducedFlatten(obj: Fields, done: set<string>, r: Fields, flat: Fields)
    requires Produced(obj, done, r) && HasDebugObject(obj) && "debug" !in done
    requires Flattened(DebugEntries(obj), r, flat)
    ensures Produced(obj, done + {"debug"}, flat)
  {
    var done' := done + {"debug"};
    var entries := DebugEntries(obj);
    forall k | k in flat ensures Allowed(obj, done', k, flat[k]) {
      if k == "debug" && NestsReserved(obj) {
      } else if k in entries && k !in ReservedKeys {
      } else {
        assert Allowed(obj, done, k, r[k]);
      }
    }
  }

  /** Once every key is processed, the record is what the formatter promises. */
  lemma ProducedComplete(obj: Fields, r: Fields)
    requires Produced(obj, obj.Keys, r)
    ensures forall k :: k in r <==> Copied(obj, k) || Lifted(obj, k) || (k == "debug" && NestsReserved(obj))
    ensures forall k :: Copied(obj, k) && !Lifted(obj, k) ==> r[k] == obj[k]
    ensures forall k :: Lifted(obj, k) && !Copied(obj, k) && !(k == "debug" && NestsReserved(obj)) ==> r[k] == DebugEntries(obj)[k]
    ensures forall k :: Copied(obj, k) && Lifted(obj, k) ==> r[k] == obj[k] || r[k] == DebugEntries(obj)[k]
    ensures NestsReserved(obj) ==> r["debug"] == Obj(ReservedPart(DebugEntries(obj)))
  {
    forall k | Lifted(obj, k) || (k == "debug" && NestsReserved(obj)) ensures "debug" in obj.Keys {
    }
    forall k | k in r ensures Allowed(obj, obj.Keys, k, r[k]) {
    }
  }

  /**
   * `prettyModeFormatter`: drop `$` keys, copy other keys, and lift the keys of an
   * object-valued `debug` to the top level except the reserved ones, which stay under
   * `debug`. Where a lifted key meets a copied top-level key the winner depends on key
   * order, which is not modelled: either value is allowed.
   */
  method PrettyModeFormatter(obj: Fields) returns (r: Fields)
    ensures forall k :: k in r <==> Copied(obj, k) || Lifted(obj, k) || (k == "debug" && NestsReserved(obj))
    ensures forall k :: Copied(obj, k) && !Lifted(obj, k) ==> r[k] == obj[k]
    ensures forall k :: Lifted(obj, k) && !Copied(obj, k) && !(k == "debug" && NestsReserved(obj)) ==> r[k] == DebugEntries(obj)[k]
    ensures forall k :: Copied(obj, k) && Lifted(obj, k) ==> r[k] == obj[k] || r[k] == DebugEntries(obj)[k]
    ensures NestsReserved(obj) ==> r["debug"] == Obj(ReservedPart(DebugEntries(obj)))
  {
    r := map[];
    var todo := obj.Keys;
    while todo != {}
      invariant todo <= obj.Keys
      invariant Produced(obj, obj.Keys - todo, r)
      decreases todo
    {
      var key :| key in todo;
      ghost var done := obj.Keys - todo;
      assert obj.Keys - (todo - {key}) == done + {key};
      var value := obj[key];
      if StartsWithDollar(key) {
        // metadata is hidden
        ProducedSkip(obj, done, r, key);
      } else if key == "debug" && IsObject(value) {
        var flat := FlattenDebug(Entries(value), r);
        ProducedFlatten(obj, done, r, flat);
        r := flat;
      } else {
        ProducedCopy(obj, done, r, key);
        r := r[key := value];
      }
      todo := todo - {key};
    }
    assert obj.Keys - todo == obj.Keys;
    ProducedComplete(obj, r);
  }
}
