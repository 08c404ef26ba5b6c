# log-grr core, modelled in Dafny

log-grr is a thin structured-logging layer over pino. A program asks a grr
instance for a logger bound to a dot-delimited *category* (`"api.users"`).
Each log call decorates the caller's fields with metadata: the `$phase`
("request" inside an `addContext` scope, "static" outside), the `$category`, the
`$topics` (the category and its successively shorter dot-prefixes), the
configured default fields, and the current context re-keyed with a `$` prefix.
The base logger then splits the fields: `$`-prefixed keys stay top-level
metadata, and every other key is nested under one `debug` object, with `Error`
values serialised to plain records. The payload goes either to an in-memory
buffer (test mode) or to a pino instance. In pretty mode, pino's log formatter
drops the metadata and flattens `debug`, keeping pino's reserved keys nested.
Configuration comes from an explicit config merged over the GRR_LEVEL and
GRR_PRETTY environment variables.

One Dafny module per source file:

| module | file | source |
|---|---|---|
| `Wrappers` | wrappers.dfy | `Option` / `Result` |
| `Values` | values.dfy | the JavaScript values a field can hold (`Fields` = `map<string, Value>`) |
| `Types` | types.dfy | src/lib/types.ts |
| `Topics` | topics.dfy | src/lib/topics.ts |
| `FieldProcessing` | fields.dfy | src/lib/fields.ts |
| `Context` | context.dfy | src/lib/context.ts |
| `Config` | config.dfy | src/lib/config.ts |
| `TestLogger` | test_logger.dfy | src/lib/testLogger.ts |
| `PinoLogger` | pino_logger.dfy | src/lib/pinoLogger.ts |
| `BaseLogger` | base_logger.dfy | src/lib/baseLogger.ts |
| `Decorate` | decorate.dfy | src/lib/decorate.ts |
| `CreateGrr` | create_grr.dfy | src/lib/createGrr.ts |

Modelling choices:

- **Loops and state.**
  - Loops of the source stay loops: `Topics.Topics`, `FieldProcessing.SeparateFields`, `Decorate.ContextFields` and `PinoLogger.PrettyModeFormatter`.
  - Each loop is proved against a specification function or predicate.
  - State updated in place becomes a class: the context store, the log buffer, a pino instance, the loggers, the default-fields callback and the grr instance.
- **Key order is not modelled.** Loops over an object's entries pick keys in any order.
  - Where the source's result depends on that order, the contract allows every outcome.
  - Case 1: context keys `a` and `$a` both map to `$a`.
  - Case 2: a lifted `debug` key collides with a top-level key in the pretty formatter.
- **Logger subclasses.** `TestLogger` and `PinoLogger` are one `BaseLogger` class over a tagged `Sink` (`Capture(store)` or `Pino(instance)`).
  - A pino instance is an abstract backend that records the `(level, payload, message)` calls handed to it.
- **Inputs become parameters.**
  - The environment (GRR_LEVEL, GRR_PRETTY, `process.stdout.isTTY`) is an `Env` value passed in.
  - A function-valued `defaultFields` is a `DefaultFieldsFn` object. It counts its invocations, and `produce(n)` is what its n-th call returns.
- **Errors become values.** Thrown errors are `Result.Failure` values carrying the same message.

## Model

| member | source | states |
|---|---|---|
| `Types.LevelNamed` | src/lib/types.ts:3-5 | a name maps to the level spelled that way; None exactly when no level has that name |
| `Types.Rank` | src/lib/types.ts:5 | every level sits at its index in the ordered list `levels` |
| `Types.LevelsEnumerateLevel` | src/lib/types.ts:3-5 | `levels` lists the six levels once each, and their names are distinct |
| `Types.LevelListText` | src/lib/config.ts:49 | the level list quoted by the GRR_LEVEL message, `levels.join(', ')`, is "trace, debug, info, warn, error, fatal" |
| `Topics.Split` | src/lib/topics.ts:13 | `split('.')` yields at least one segment, none containing a dot |
| `Topics.SplitCount` | src/lib/topics.ts:13 | the number of segments is the number of dots plus one |
| `Topics.JoinSplit` | src/lib/topics.ts:13-16 | joining the segments with "." gives back the category |
| `Topics.SplitJoin` | src/lib/topics.ts:13-16 | splitting a join of dot-free segments gives back the segments |
| `Topics.Topics` | src/lib/topics.ts:9-21 | the push/pop loop yields the joins of ever shorter segment prefixes, longest first |
| `Topics.TopicListShape` | src/lib/topics.ts:9-21 | "" gives []; otherwise one topic per segment, the first is the category, the last is the root segment |
| `Topics.TopicStep` | src/lib/topics.ts:15-18 | each topic is the next one plus "." plus the segment popped between them |
| `Topics.TopicIsPrefix` | src/lib/topics.ts:15-18 | every topic is a prefix of the category; each shorter one ends just before a dot |
| `Topics.TopicsOfDotless` | src/lib/topics.ts:9-21 | a non-empty category without dots has itself as its only topic |
| `FieldProcessing.SeparateFields` | src/lib/fields.ts:10-23 | meta holds exactly the `$`-prefixed entries and debug all the others, with the values unchanged |
| `FieldProcessing.SeparationPartitions` | src/lib/fields.ts:10-23 | meta and debug are disjoint, together cover the input, and are both empty for empty input |
| `FieldProcessing.ErrorRecord` | src/lib/fields.ts:30-39 | an Error becomes {name, message, stack}, plus `_class` exactly for a subclass |
| `FieldProcessing.SerializeErrors` | src/lib/fields.ts:29-55 | the result holds no Error at any depth; arrays keep their length and objects their keys |
| `FieldProcessing.SerializeErrorsCases` | src/lib/fields.ts:29-55 | Errors become records, arrays and objects are serialised element by element, anything else is returned as is |
| `FieldProcessing.SerializeErrorsIdentity` | src/lib/fields.ts:42-54 | a value without Errors is returned unchanged |
| `FieldProcessing.SerializeErrorsIdempotent` | src/lib/fields.ts:29-55 | serialising twice is the same as serialising once |
| `Context.Merged` | src/lib/context.ts:20 | the merged context has the keys of the parent and of the patch |
| `Context.MergedPrecedence` | src/lib/context.ts:18-21 | patch values win, parent values are inherited for the other keys, no parent means the patch alone |
| `Context.ContextStore.constructor` | src/lib/context.ts:5 | the store starts outside any context |
| `Context.ContextStore.MaybeContext` | src/lib/context.ts:26-28 | the context of the innermost active scope, None outside every scope, exactly when `getContext` fails, and otherwise the context `getContext` returns |
| `Context.ContextStore.GetContext` | src/lib/context.ts:33-39 | fails with "getContext called outside of addContext" exactly outside a context, and otherwise returns the current context |
| `Context.ContextStore.Enter` | src/lib/context.ts:18-20 | the current context becomes the parent merged with the patch; the parent is returned for restoring |
| `Context.ContextStore.Restore` | src/lib/context.ts:20 | leaving a scope reinstates the saved context |
| `Context.ContextStore.AddContext` | src/lib/context.ts:18-21 | the body runs under the merged context, its result is returned, and the outer context is unchanged afterwards |
| `Config.LowerChar` | src/lib/config.ts:44 | an ASCII capital becomes the small letter 32 code points on; every other character is kept |
| `Config.Lower` | src/lib/config.ts:44 | keeps the length, lowers each capital to its small letter, keeps every other character, and leaves no capital behind |
| `Config.LowerIdempotent` | src/lib/config.ts:44 | lower-casing twice is lower-casing once |
| `Config.ParseLevel` | src/lib/config.ts:41-50 | unset or "" gives info; a non-empty value parses exactly when its lower-cased form names a level, and gives that level; any failure carries the GRR_LEVEL message quoting the raw value and listing the levels |
| `Config.ParseLevelCaseInsensitive` | src/lib/config.ts:44-47 | values equal up to case parse alike |
| `Config.ParsePretty` | src/lib/config.ts:52-60 | unset follows whether stdout is a terminal; "1"/"true" give true and "0"/"false" give false, in any case; everything else, "" included, fails with the GRR_PRETTY message quoting the raw value |
| `Config.ParseExamples` | src/lib/config.spec.ts:31-37 | "DEBUG" parses to debug and "Info" to info; "TRUE" gives pretty output and "False" plain output (also config.spec.ts:52-58) |
| `Config.ConfigFromEnv` | src/lib/config.ts:65-70 | succeeds exactly when both variables parse; a bad GRR_LEVEL is reported before a bad GRR_PRETTY |
| `TestLogger.LogStore.constructor` | src/lib/testLogger.ts:37 | a new buffer is empty |
| `TestLogger.LogStore.Push` | src/lib/testLogger.ts:25 | appends exactly one entry after the existing ones |
| `TestLogger.LogStore.GetLogs` | src/lib/testLogger.ts:41 | the buffer itself: with `Push` and `Clear`, every entry pushed since the last clear, oldest first |
| `TestLogger.LogStore.Clear` | src/lib/testLogger.ts:42-44 | truncates the buffer in place |
| `PinoLogger.PinoInstance.Write` | src/lib/pinoLogger.ts:80-82 | records one `pino[level](payload, message)` call after the earlier ones |
| `PinoLogger.CreatePinoInstance` | src/lib/pinoLogger.ts:49-67 | level defaults to info; pretty defaults to the terminal flag; in pretty mode the formatter hides metadata unless showMetadata is set |
| `PinoLogger.CreatePinoWithTransports` | src/lib/pinoLogger.ts:107-113 | a fresh instance at the given level writing to the given targets |
| `PinoLogger.FlattenDebug` | src/lib/pinoLogger.ts:26-38 | non-reserved debug entries are lifted over the output; reserved ones, if any, end up alone under `debug` |
| `PinoLogger.PrettyModeFormatter` | src/lib/pinoLogger.ts:20-44 | output keys are the copied non-`$` keys, the lifted debug keys, and `debug` when reserved keys remain; copied and lifted values are kept; on a collision one of the two values wins; reserved debug keys stay nested |
| `BaseLogger.SerializedDebug` | src/lib/baseLogger.ts:13 | serialising the debug part keeps its keys |
| `BaseLogger.Payload` | src/lib/baseLogger.ts:14-17 | every `$`-prefixed field stays top-level with its value, and the only other key the payload can have is `debug` |
| `BaseLogger.PayloadShape` | src/lib/baseLogger.ts:11-19 | the payload's `$` keys and values are the caller's; the only other key is `debug`, present exactly when some caller key lacks `$`; it holds the Error-free serialisation of each such entry |
| `BaseLogger.PayloadOfNothing` | src/lib/baseLogger.ts:11 | no fields give an empty payload |
| `BaseLogger.PayloadOfMetaOnly` | src/lib/baseLogger.ts:14-17 | all-metadata fields pass through without a `debug` key |
| `BaseLogger.PayloadOfDebugOnly` | src/lib/baseLogger.ts:14-17 | Error-free fields without `$` all go under `debug` |
| `BaseLogger.BaseLogger.constructor` | src/lib/testLogger.ts:17-22 | a logger is bound to its category and its sink |
| `BaseLogger.BaseLogger.Output` | src/lib/testLogger.ts:24-26 | the sink receives exactly one more record: a captured entry with the category, or a forwarded pino call |
| `BaseLogger.BaseLogger.Log` | src/lib/baseLogger.ts:11-19 | the sink receives exactly one record carrying the payload of the fields, absent fields counting as {} |
| `BaseLogger.BaseLogger.Trace` | src/lib/baseLogger.ts:21-23 | logs once at trace |
| `BaseLogger.BaseLogger.Debug` | src/lib/baseLogger.ts:25-27 | logs once at debug |
| `BaseLogger.BaseLogger.Info` | src/lib/baseLogger.ts:29-31 | logs once at info |
| `BaseLogger.BaseLogger.Warn` | src/lib/baseLogger.ts:33-35 | logs once at warn |
| `BaseLogger.BaseLogger.Error` | src/lib/baseLogger.ts:37-39 | logs once at error |
| `BaseLogger.BaseLogger.Fatal` | src/lib/baseLogger.ts:41-43 | logs once at fatal |
| `BaseLogger.NewLogger` | src/lib/pinoLogger.ts:90 | a factory's loggers are fresh, bound to the requested category, and share the factory's sink |
| `BaseLogger.CreateTestLogger` | src/lib/testLogger.ts:32-46 | a fresh empty buffer, and a factory whose loggers all append to it |
| `Decorate.Assemble` | src/lib/decorate.ts:35-42 | the caller's fields override every layer; `$phase`, `$category` and `$topics` are always present; `$phase` is "request" or "static" unless defaults, context or caller set it |
| `Decorate.Prefixed` | src/lib/decorate.ts:24 | a re-keyed context key always starts with `$` |
| `Decorate.ContextFields` | src/lib/decorate.ts:22-26 | every context key appears re-keyed, and every produced key carries the value of a context key that re-keys to it |
| `Decorate.ContextFieldsProperties` | src/lib/decorate.ts:22-26 | the context fields are exactly the re-keyed keys, all `$`-prefixed; no key is prefixed twice; an unambiguous key keeps its value |
| `Decorate.DefaultFieldsFn.Call` | src/lib/config.ts:6 | a call returns the callback's next result and counts one invocation |
| `Decorate.ResolveDefaults` | src/lib/decorate.ts:28-33 | a function is called exactly once, a map is used as is, and absence gives {} |
| `Decorate.DecorateCallerAndCategory` | src/lib/decorate.ts:35-42 | caller fields override everything; `$category` and `$topics` override context and defaults |
| `Decorate.DecorateContext` | src/lib/decorate.ts:35-42 | a context value shows under its `$` key unless the caller or a fixed key overrides it |
| `Decorate.DecorateDefault` | src/lib/decorate.ts:35-42 | a default shows unless the caller, a fixed key or the context overrides it |
| `Decorate.DecoratePhase` | src/lib/decorate.ts:19-20 | `$phase` is "request" inside a context and "static" outside, unless overridden |
| `Decorate.DecorateKeys` | src/lib/decorate.ts:35-42 | the keys are `$phase`, `$category`, `$topics`, the defaults', the re-keyed context's and the caller's |
| `Decorate.DecorateStatic` | src/lib/decorate.ts:14-44 | outside a context and without defaults, the result is the three fixed fields overlaid by the caller's |
| `Decorate.DecoratedPlainKeys` | src/lib/decorate.ts:35-42 | a key without `$` is in the decoration exactly when the caller or the defaults supply it |
| `Decorate.DecoratedPayloadMeta` | src/lib/decorate.ts:57 | after the base logger's split, `$category`, `$topics` and `$phase` stay top-level |
| `Decorate.DecoratedPayloadDebug` | src/lib/decorate.ts:57 | a `debug` object appears exactly when the caller or the defaults supplied a key without `$` |
| `Decorate.DecorateFields` | src/lib/decorate.ts:14-44 | the result is a decoration of the caller's fields under the current context and defaults; the defaults callback runs once |
| `Decorate.DecoratedLogger.constructor` | src/lib/decorate.ts:49-53 | the decorated logger keeps its category, inner logger and options |
| `Decorate.DecoratedLogger.Log` | src/lib/decorate.ts:56-58 | the inner logger receives exactly one record at the same level, carrying the payload of the decorated fields |
| `Decorate.DecoratedLogger.Trace` | src/lib/decorate.ts:55-59 | decorates and logs once at trace |
| `Decorate.DecoratedLogger.Debug` | src/lib/decorate.ts:55-59 | decorates and logs once at debug |
| `Decorate.DecoratedLogger.Info` | src/lib/decorate.ts:55-59 | decorates and logs once at info |
| `Decorate.DecoratedLogger.Warn` | src/lib/decorate.ts:55-59 | decorates and logs once at warn |
| `Decorate.DecoratedLogger.Error` | src/lib/decorate.ts:55-59 | decorates and logs once at error |
| `Decorate.DecoratedLogger.Fatal` | src/lib/decorate.ts:55-59 | decorates and logs once at fatal |
| `Decorate.WithDecoration` | src/lib/decorate.ts:68-73 | a fresh decorated logger over a fresh base logger of the same category on the factory's sink |
| `CreateGrr.ModeOf` | src/lib/createGrr.ts:44-67 | test mode wins, then a custom pino instance, then transports, then simple mode |
| `CreateGrr.EmptyConfigIsSimple` | src/lib/createGrr.ts:34-38 | the `{}` lazy initialisation passes takes the simple-mode branch, sets no default fields, and leaves level and pretty to the environment |
| `CreateGrr.Grr.constructor` | src/lib/createGrr.ts:26-32 | a new instance is uninitialised with an empty test buffer |
| `CreateGrr.Grr.InitGrr` | src/lib/createGrr.ts:40-70 | a bad environment fails every mode and changes nothing; otherwise the instance is initialised in the selected mode; explicit level and pretty override the environment; only test mode replaces the buffer; the warning is issued exactly for a custom instance with GRR_LEVEL or GRR_PRETTY set |
| `CreateGrr.Grr.EnsureInitialized` | src/lib/createGrr.ts:34-38 | on first use with a valid environment, builds the simple-mode state: no default fields and a fresh, unused pino instance at GRR_LEVEL's level, pretty exactly when GRR_PRETTY (or the terminal flag) says so; a bad environment fails and changes nothing; once initialised nothing changes |
| `CreateGrr.Grr.GetLogger` | src/lib/createGrr.ts:73-76 | a fresh decorated logger on the current factory's sink; on first use that sink is the simple-mode pino instance built from the environment; fails only on first use with a bad environment; an initialised instance is left unchanged |
| `CreateGrr.Grr.GetTestLogs` | src/lib/createGrr.ts:81-84 | returns what the test buffer holds; initialises in simple mode on first use and leaves an initialised instance unchanged |
| `CreateGrr.Grr.ClearTestLogs` | src/lib/createGrr.ts:85-88 | empties the test buffer in place; initialises in simple mode on first use and otherwise leaves the instance's factory and options unchanged |

## Left out

- AsyncLocalStorage and asynchronous context propagation. Scopes are modelled as synchronous enter, run and restore on one `ContextStore`; a body is a pure function of the context it sees.
- Pino itself is not modelled: serialisation, timestamps, transports and the pino-pretty worker. An instance records the calls it receives. When and where pino applies the pretty formatter is not tied to an instance's calls.
- `console.warn` is not modelled as output. `CreateGrr.Grr.InitGrr` returns the warning text instead.
- `process.env` and `process.stdout.isTTY` are parameters (`Config.Env`). An `isTTY` that is `undefined` is modelled as false.
- Object key insertion order is not modelled. For colliding keys the contracts admit either value (see above).
- Numbers are unbounded integers. Floating point is not modelled, nor is any value kind beyond those in `Values.Value` (functions, symbols, class instances other than Error).
- An Error's own enumerable properties are not modelled. `Values.Value.Err` carries name, message, optional stack and optional subclass name. The pretty formatter sees no entries in an Error under `debug`, and `serializeErrors` emits only the record fields.
- `toLowerCase` is modelled on ASCII letters only. Every accepted spelling (level names, "true", "false") is ASCII, so acceptance agrees with the source. A rejection message quotes the value as given.
- `CreateGrr.Grr.GetTestLogs` returns the buffer's contents at the time of the call. The source returns the live array, which later log calls keep extending.
- `decorateLogger` builds its six level methods in a loop over `levels`. The model writes out the six methods.
- The `C extends string` type parameter of `createGrr` is a compile-time restriction on categories and is not modelled.
- `createPinoLoggerFromInstance` is modelled inside `CreateGrr.Grr.InitGrr` as the sink `Pino(config.pino)`.
- `createPinoLogger` is modelled as `PinoLogger.CreatePinoInstance` plus `BaseLogger.NewLogger`.
- `PinoLogger.CreatePinoWithTransports` takes its level as required. The source's default of trace is never used by `createGrr`.
- The `Logger` interface of src/lib/types.ts has no behaviour of its own. It is the six level methods of `BaseLogger.BaseLogger` and `Decorate.DecoratedLogger`.
