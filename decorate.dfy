/** Field decoration with phase, defaults, context, category and topics (src/lib/decorate.ts). */
module Decorate {
  import opened Wrappers
  import opened Types
  import opened Values
  import opened Topics
  import opened Context
  import opened BaseLogger

  /** A context key as it appears in log fields: `$`-prefixed, unless it already is. */
  function Prefixed(key: string): (p: string)
    ensures StartsWithDollar(p)
  {
    if StartsWithDollar(key) then key else [Marker] + key
  }

  /**
   * `cf` is what the `contextFields` loop builds from `context`: every key re-keyed
   * by `Prefixed`, each carrying the value of a context key that re-keys to it. When
   * two context keys re-key alike (`a` and `$a`) the survivor depends on key order,
   * which is not modelled, so either is allowed.
   */
  ghost predicate ContextFieldsOf(context: Context, cf: Fields) {
    && (forall k :: k in context ==> Prefixed(k) in cf)
    && (forall p :: p in cf ==> exists k :: k in context && Prefixed(k) == p && cf[p] == context[k])
  }

  /** The `contextFields` loop of `decorateFields`. */
  method ContextFields(context: Context) returns (cf: Fields)
    ensures ContextFieldsOf(context, cf)
  {
    cf := map[];
    var todo := context.Keys;
    while todo != {}
      invariant todo <= context.Keys
      invariant forall k :: k in context && k !in todo ==> Prefixed(k) in cf
      invariant forall p :: p in cf ==> exists k :: k in context && k !in todo && Prefixed(k) == p && cf[p] == context[k]
      decreases todo
    {
      var key :| key in todo;
      var p := Prefixed(key);
      cf := cf[p := context[key]];
      todo := todo - {key};
    }
  }

  /** Every context field is `$`-prefixed. */
  lemma ContextFieldsMarked(context: Context, cf: Fields)
    requires ContextFieldsOf(context, cf)
    ensures forall p :: p in cf ==> StartsWithDollar(p)
  {
    forall p | p in cf ensures StartsWithDollar(p) {
      var k :| k in context && Prefixed(k) == p && cf[p] == context[k];
    }
  }

  /** The set of keys a context contributes. */
  function ContextKeys(context: Option<Context>): set<string> {
    set k | k in context.GetOr(map[]) :: Prefixed(k)
  }

  /** No other key of the context re-keys to the same field. */
  predicate Unambiguous(context: Context, k: string) {
    forall k' :: k' in context && Prefixed(k') == Prefixed(k) ==> k' == k
  }

  /**
   * The context fields are exactly the re-keyed context keys, all `$`-prefixed; a
   * key is never prefixed twice, so a `$$` key appears only if the context had it;
   * and an unambiguous key carries its context value.
   */
  lemma ContextFieldsProperties(context: Context, cf: Fields)
    requires ContextFieldsOf(context, cf)
    ensures cf.Keys == ContextKeys(Some(context))
    ensures forall p :: p in cf ==> StartsWithDollar(p)
    ensures forall p :: p in cf && |p| >= 2 && p[1] == Marker ==> p in context
    ensures forall k :: k in context && Unambiguous(context, k) ==> cf[Prefixed(k)] == context[k]
  {
    forall p | p in cf && |p| >= 2 && p[1] == Marker ensures p in context {
      var k :| k in context && Prefixed(k) == p && cf[p] == context[k];
    }
    forall k | k in context && Unambiguous(context, k) ensures cf[Prefixed(k)] == context[k] {
      var k' :| k' in context && Prefixed(k') == Prefixed(k) && cf[Prefixed(k)] == context[k'];
    }
    forall p | p in cf ensures p in ContextKeys(Some(context)) {
      var k :| k in context && Prefixed(k) == p && cf[p] == context[k];
    }
  }

  /** A function-valued `defaultFields`: `produce(n)` is what its call number n (from 0) returns. */
  class DefaultFieldsFn {
    const produce: nat -> Fields
    var invocations: nat

    constructor(produce: nat -> Fields)
      ensures this.produce == produce && invocations == 0
    {
      this.produce := produce;
      invocations := 0;
    }

    method Call() returns (f: Fields)
      modifies this
      ensures invocations == old(invocations) + 1
      ensures f == produce(old(invocations))
    {
      f := produce(invocations);
      invocations := invocations + 1;
    }
  }

  /** `DefaultFields`: a field map or a function returning one. */
  datatype DefaultFields = StaticFields(fields: Fields) | DynamicFields(fn: DefaultFieldsFn)

  datatype DecoratorOptions = DecoratorOptions(defaultFields: Option<DefaultFields>)

  /** The callback the options may invoke. */
  function Callbacks(options: DecoratorOptions): set<object> {
    if options.defaultFields.Some? && options.defaultFields.value.DynamicFields?
    then {options.defaultFields.value.fn} else {}
  }

  /** The defaults the next resolution yields. */
  function DefaultsNow(options: DecoratorOptions): Fields
    reads Callbacks(options)
  {
    match options.defaultFields
    case None => map[]
    case Some(StaticFields(f)) => f
    case Some(DynamicFields(fn)) => fn.produce(fn.invocations)
  }

  /** A function-valued default was invoked exactly once; otherwise nothing was invoked. */
  twostate predicate InvokedOnce(options: DecoratorOptions)
    reads Callbacks(options)
  {
    options.defaultFields.Some? && options.defaultFields.value.DynamicFields? ==>
      options.defaultFields.value.fn.invocations == old(options.defaultFields.value.fn.invocations) + 1
  }

  /** Resolve `defaultFields`: a function is called once, a map is used as it is, absence gives `{}`. */
  method ResolveDefaults(options: DecoratorOptions) returns (defaults: Fields)
    modifies Callbacks(options)
    ensures defaults == old(DefaultsNow(options))
    ensures InvokedOnce(options)
  {
    match options.defaultFields
    case None =>
      defaults := map[];
    case Some(StaticFields(f)) =>
      defaults := f;
    case Some(DynamicFields(fn)) =>
      defaults := fn.Call();
  }

  /** "request" inside some `addContext`, "static" outside. */
  function Phase(context: Option<Context>): string {
    if context.Some? then "request" else "static"
  }

  function TopicsValue(category: string): Value {
    Arr(StrSeq(TopicList(category)))
  }

  /** The merge, lowest precedence first: phase, defaults, context, category and topics, caller fields. */
  function Assemble(category: string, fields: Fields, context: Option<Context>, defaults: Fields, cf: Fields): (r: Fields)
    ensures forall k :: k in fields ==> k in r && r[k] == fields[k]
    ensures "$phase" in r && "$category" in r && "$topics" in r
    ensures "$phase" !in fields + defaults + cf ==> r["$phase"] == Str(Phase(context))
  {
    map["$phase" := Str(Phase(context))] + defaults + cf
    + map["$category" := Str(category), "$topics" := TopicsValue(category)] + fields
  }

  /** `r` is a decoration of `fields` for this category, context and defaults. */
  ghost predicate Decorates(r: Fields, category: string, fields: Fields, context: Option<Context>, defaults: Fields) {
    exists cf :: ContextFieldsOf(context.GetOr(map[]), cf) && r == Assemble(category, fields, context, defaults, cf)
  }

  /** The key set of the merge. */
  lemma AssembleKeys(category: string, fields: Fields, context: Option<Context>, defaults: Fields, cf: Fields)
    ensures Assemble(category, fields, context, defaults, cf).Keys
            == {"$phase", "$category", "$topics"} + defaults.Keys + cf.Keys + fields.Keys
  {
  }

  /** Which layer of the merge supplies the value of one key. */
  lemma AssembleAt(category: string, fields: Fields, context: Option<Context>, defaults: Fields, cf: Fields, k: string)
    requires k !in fields && k != "$category" && k != "$topics"
    ensures k in cf ==> Assemble(category, fields, context, defaults, cf)[k] == cf[k]
    ensures k !in cf && k in defaults ==> Assemble(category, fields, context, defaults, cf)[k] == defaults[k]
    ensures k !in cf && k !in defaults && k == "$phase" ==>
              Assemble(category, fields, context, defaults, cf)[k] == Str(Phase(context))
  {
  }

  /** Caller fields win over everything; category and topics over context and defaults. */
  lemma DecorateCallerAndCategory(r: Fields, category: string, fields: Fields, context: Option<Context>, defaults: Fields)
    requires Decorates(r, category, fields, context, defaults)
    ensures forall k :: k in fields ==> r[k] == fields[k]
    ensures "$category" !in fields ==> r["$category"] == Str(category)
    ensures "$topics" !in fields ==> r["$topics"] == TopicsValue(category)
  {
    var cf :| ContextFieldsOf(context.GetOr(map[]), cf) && r == Assemble(category, fields, context, defaults, cf);
  }

  /** An unambiguous context key, not overridden by the caller and not a fixed key, carries its context value. */
  lemma DecorateContext(r: Fields, category: string, fields: Fields, context: Context, defaults: Fields, k: string)
    requires Decorates(r, category, fields, Some(context), defaults)
    requires k in context && Unambiguous(context, k)
    requires Prefixed(k) !in fields && Prefixed(k) != "$category" && Prefixed(k) != "$topics"
    ensures Prefixed(k) in r && r[Prefixed(k)] == context[k]
  {
    var cf :| ContextFieldsOf(context, cf) && r == Assemble(category, fields, Some(context), defaults, cf);
    ContextFieldsProperties(context, cf);
    AssembleAt(category, fields, Some(context), defaults, cf, Prefixed(k));
  }

  /** A default not overridden by the caller, a fixed key or the context keeps its value. */
  lemma DecorateDefault(r: Fields, category: string, fields: Fields, context: Option<Context>, defaults: Fields, k: string)
    requires Decorates(r, category, fields, context, defaults)
    requires k in defaults && k !in fields && k != "$category" && k != "$topics" && k !in ContextKeys(context)
    ensures k in r && r[k] == defaults[k]
  {
    var cf :| ContextFieldsOf(context.GetOr(map[]), cf) && r == Assemble(category, fields, context, defaults, cf);
    ContextFieldsProperties(context.GetOr(map[]), cf);
    AssembleAt(category, fields, context, defaults, cf, k);
  }

  /** `$phase` is "request" inside a context and "static" outside, unless some layer above overrides it. */
  lemma DecoratePhase(r: Fields, category: string, fields: Fields, context: Option<Context>, defaults: Fields)
    requires Decorates(r, category, fields, context, defaults)
    requires "$phase" !in fields && "$phase" !in defaults && "$phase" !in ContextKeys(context)
    ensures r["$phase"] == Str(if context.Some? then "request" else "static")
  {
    var cf :| ContextFieldsOf(context.GetOr(map[]), cf) && r == Assemble(category, fields, context, defaults, cf);
    ContextFieldsProperties(context.GetOr(map[]), cf);
    AssembleAt(category, fields, context, defaults, cf, "$phase");
  }

  /** The decorated keys are the three fixed ones, the defaults', the context's and the caller's. */
  lemma DecorateKeys(r: Fields, category: string, fields: Fields, context: Option<Context>, defaults: Fields)
    requires Decorates(r, category, fields, context, defaults)
    ensures r.Keys == {"$phase", "$category", "$topics"} + defaults.Keys + ContextKeys(context) + fields.Keys
  {
    var cf :| ContextFieldsOf(context.GetOr(map[]), cf) && r == Assemble(category, fields, context, defaults, cf);
    ContextFieldsProperties(context.GetOr(map[]), cf);
    AssembleKeys(category, fields, context, defaults, cf);
  }

  /** Without context or defaults the result is exactly phase "static", category and topics, overlaid by the caller's fields. */
  lemma DecorateStatic(r: Fields, category: string, fields: Fields)
    requires Decorates(r, category, fields, None, map[])
    ensures r == map["$phase" := Str("static"), "$category" := Str(category), "$topics" := TopicsValue(category)] + fields
  {
    var empty: Context := map[];
    var cf :| ContextFieldsOf(empty, cf) && r == Assemble(category, fields, None, map[], cf);
    assert forall p :: p !in cf;
    assert cf == map[];
    AssembleStatic(category, fields);
  }

  /** The merge with no context and no defaults. */
  lemma AssembleStatic(category: string, fields: Fields)
    ensures Assemble(category, fields, None, map[], map[])
            == map["$phase" := Str("static"), "$category" := Str(category), "$topics" := TopicsValue(category)] + fields
  {
    var fixed := map["$phase" := Str("static"), "$category" := Str(category), "$topics" := TopicsValue(category)];
    assert map["$phase" := Str(Phase(None))] + map[] + map[] + map["$category" := Str(category), "$topics" := TopicsValue(category)]
           == fixed;
  }

  /** What the base logger makes of a decoration: category, topics and phase stay top-level metadata. */
  lemma DecoratedPayloadMeta(r: Fields, category: string, fields: Fields, context: Option<Context>, defaults: Fields)
    requires Decorates(r, category, fields, context, defaults)
    ensures "$category" !in fields ==> Payload(r)["$category"] == Str(category)
    ensures "$topics" !in fields ==> Payload(r)["$topics"] == TopicsValue(category)
    ensures "$phase" in Payload(r)
  {
    DecorateCallerAndCategory(r, category, fields, context, defaults);
    var cf :| ContextFieldsOf(context.GetOr(map[]), cf) && r == Assemble(category, fields, context, defaults, cf);
    AssembleKeys(category, fields, context, defaults, cf);
    PayloadShape(r);
  }

  /** A key without `$` is in the merge exactly when the caller or the defaults supply it. */
  lemma AssemblePlain(category: string, fields: Fields, context: Option<Context>, defaults: Fields, cf: Fields, k: string)
    requires forall p :: p in cf ==> StartsWithDollar(p)
    requires !StartsWithDollar(k)
    ensures k in Assemble(category, fields, context, defaults, cf) <==> k in fields || k in defaults
  {
    assert k !in cf;
    assert "$phase"[0] == Marker && "$category"[0] == Marker && "$topics"[0] == Marker;
  }

  /** The keys without `$` of a decoration are those of the caller and of the defaults. */
  lemma DecoratedPlainKeys(r: Fields, category: string, fields: Fields, context: Option<Context>, defaults: Fields, k: string)
    requires Decorates(r, category, fields, context, defaults)
    requires !StartsWithDollar(k)
    ensures k in r <==> k in fields || k in defaults
  {
    var cf :| ContextFieldsOf(context.GetOr(map[]), cf) && r == Assemble(category, fields, context, defaults, cf);
    ContextFieldsMarked(context.GetOr(map[]), cf);
    AssemblePlain(category, fields, context, defaults, cf, k);
  }

  /** A `debug` object appears in the payload exactly when the caller or the defaults supplied a key without `$`. */
  lemma DecoratedPayloadDebug(r: Fields, category: string, fields: Fields, context: Option<Context>, defaults: Fields)
    requires Decorates(r, category, fields, context, defaults)
    ensures "debug" in Payload(r) <==> exists k :: (k in fields || k in defaults) && !StartsWithDollar(k)
  {
    PayloadShape(r);
    if "debug" in Payload(r) {
      var k :| k in r && !StartsWithDollar(k);
      DecoratedPlainKeys(r, category, fields, context, defaults, k);
    }
    if exists k :: (k in fields || k in defaults) && !StartsWithDollar(k) {
      var k :| (k in fields || k in defaults) && !StartsWithDollar(k);
      DecoratedPlainKeys(r, category, fields, context, defaults, k);
    }
  }

  /** `decorateFields`: the caller's fields (absent means `{}`) decorated under the current context and defaults. */
  method DecorateFields(category: string, fields: Option<Fields>, options: DecoratorOptions, store: ContextStore)
    returns (r: Fields)
    modifies Callbacks(options)
    ensures Decorates(r, category, fields.GetOr(map[]), store.current, old(DefaultsNow(options)))
    ensures InvokedOnce(options)
  {
    var context := store.MaybeContext();
    var contextFields := ContextFields(context.GetOr(map[]));
    var defaults := ResolveDefaults(options);
    r := Assemble(category, fields.GetOr(map[]), context, defaults, contextFields);
  }

  /**
   * `decorateLogger`: a logger whose six level methods decorate the caller's fields
   * and hand them to the wrapped logger at the same level. Each method reports, as a
   * ghost out-parameter, the fields it decorated.
   */
  class DecoratedLogger {
    const category: string
    const inner: BaseLogger
    const options: DecoratorOptions
    const contexts: ContextStore

    constructor(category: string, inner: BaseLogger, options: DecoratorOptions, contexts: ContextStore)
      ensures this.category == category && this.inner == inner
      ensures this.options == options && this.contexts == contexts
    {
      this.category := category;
      this.inner := inner;
      this.options := options;
      this.contexts := contexts;
    }

    /** What a log call may change: the wrapped logger's sink and the defaults callback. */
    function Repr(): set<object> {
      inner.Targets() + Callbacks(options)
    }

    /** The body shared by the six level methods. */
    method Log(level: Level, message: string, fields: Option<Fields>) returns (ghost decorated: Fields)
      modifies Repr()
      ensures Decorates(decorated, category, fields.GetOr(map[]), contexts.current, old(DefaultsNow(options)))
      ensures inner.DeliveredOnce(old(inner.Captured()), old(inner.Forwarded()), level, message, Payload(decorated))
      ensures InvokedOnce(options)
    {
      var d := DecorateFields(category, fields, options, contexts);
      inner.Log(level, message, Some(d));
      decorated := d;
    }

    method Trace(message: string, fields: Option<Fields>) returns (ghost decorated: Fields)
      modifies Repr()
      ensures Decorates(decorated, category, fields.GetOr(map[]), contexts.current, old(DefaultsNow(options)))
      ensures inner.DeliveredOnce(old(inner.Captured()), old(inner.Forwarded()), Level.Trace, message, Payload(decorated))
      ensures InvokedOnce(options)
    {
      decorated := Log(Level.Trace, message, fields);
    }

    method Debug(message: string, fields: Option<Fields>) returns (ghost decorated: Fields)
      modifies Repr()
      ensures Decorates(decorated, category, fields.GetOr(map[]), contexts.current, old(DefaultsNow(options)))
      ensures inner.DeliveredOnce(old(inner.Captured()), old(inner.Forwarded()), Level.Debug, message, Payload(decorated))
      ensures InvokedOnce(options)
    {
      decorated := Log(Level.Debug, message, fields);
    }

    method Info(message: string, fields: Option<Fields>) returns (ghost decorated: Fields)
      modifies Repr()
      ensures Decorates(decorated, category, fields.GetOr(map[]), contexts.current, old(DefaultsNow(options)))
      ensures inner.DeliveredOnce(old(inner.Captured()), old(inner.Forwarded()), Level.Info, message, Payload(decorated))
      ensures InvokedOnce(options)
    {
      decorated := Log(Level.Info, message, fields);
    }

    method Warn(message: string, fields: Option<Fields>) returns (ghost decorated: Fields)
      modifies Repr()
      ensures Decorates(decorated, category, fields.GetOr(map[]), contexts.current, old(DefaultsNow(options)))
      ensures inner.DeliveredOnce(old(inner.Captured()), old(inner.Forwarded()), Level.Warn, message, Payload(decorated))
      ensures InvokedOnce(options)
    {
      decorated := Log(Level.Warn, message, fields);
    }

    method Error(message: string, fields: Option<Fields>) returns (ghost decorated: Fields)
      modifies Repr()
      ensures Decorates(decorated, category, fields.GetOr(map[]), contexts.current, old(DefaultsNow(options)))
      ensures inner.DeliveredOnce(old(inner.Captured()), old(inner.Forwarded()), Level.Error, message, Payload(decorated))
      ensures InvokedOnce(options)
    {
      decorated := Log(Level.Error, message, fields);
    }

    method Fatal(message: string, fields: Option<Fields>) returns (ghost decorated: Fields)
      modifies Repr()
      ensures Decorates(decorated, category, fields.GetOr(map[]), contexts.current, old(DefaultsNow(options)))
      ensures inner.DeliveredOnce(old(inner.Captured()), old(inner.Forwarded()), Level.Fatal, message, Payload(decorated))
      ensures InvokedOnce(options)
    {
      decorated := Log(Level.Fatal, message, fields);
    }
  }

  /** `withDecoration(factory, options)(category)`: a fresh base logger for the category, wrapped by `decorateLogger`. */
  method WithDecoration(factory: Sink, options: DecoratorOptions, contexts: ContextStore, category: string)
    returns (logger: DecoratedLogger)
    ensures fresh(logger) && fresh(logger.inner)
    ensures logger.category == category && logger.options == options && logger.contexts == contexts
    ensures logger.inner.category == category && logger.inner.sink == factory
  {
    var base := NewLogger(factory, category);
    logger := new DecoratedLogger(category, base, options, contexts);
  }
}
