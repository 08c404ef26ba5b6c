/** The grr instance: lazy initialisation, mode selection and test-log access (src/lib/createGrr.ts). */
module CreateGrr {
  import opened Wrappers
  import opened Types
  import opened Values
  import opened Context
  import opened TestLogger
  import opened PinoLogger
  import opened BaseLogger
  import opened Decorate
  import Config

  /** The `type` tag of a configuration. */
  datatype ConfigType = TestType | PinoType

  /**
   * A `Partial<Config>`: every member may be absent. `pino` and `transports` are
   * present exactly when set to a truthy value.
   */
  datatype GrrConfig = GrrConfig(
    kind: Option<ConfigType>,
    pino: Option<PinoInstance>,
    transports: Option<seq<TransportTarget>>,
    level: Option<Level>,
    pretty: Option<bool>,
    defaultFields: Option<DefaultFields>)

  /** `{}`, the configuration lazy initialisation uses. */
  const EmptyConfig := GrrConfig(None, None, None, None, None, None)

  const IgnoredEnvWarning := "grr: GRR_LEVEL/GRR_PRETTY are ignored when using a custom pino instance"

  /** GRR_LEVEL or GRR_PRETTY is set to a non-empty string. */
  predicate EnvOverridesSet(env: Config.Env) {
    (env.grrLevel.Some? && env.grrLevel.value != "") || (env.grrPretty.Some? && env.grrPretty.value != "")
  }

  /** The four modes of `initGrr`, in the order it tries them. */
  datatype Mode = TestMode | CustomPinoMode | TransportsMode | SimpleMode

  function ModeOf(config: GrrConfig): (m: Mode)
    ensures m == TestMode <==> config.kind == Some(TestType)
    ensures m == CustomPinoMode <==> config.kind != Some(TestType) && config.pino.Some?
    ensures m == TransportsMode <==> config.kind != Some(TestType) && config.pino.None? && config.transports.Some?
    ensures m == SimpleMode <==> config.kind != Some(TestType) && config.pino.None? && config.transports.None?
  {
    if config.kind == Some(TestType) then TestMode
    else if config.pino.Some? then CustomPinoMode
    else if config.transports.Some? then TransportsMode
    else SimpleMode
  }

  /** `initGrr({})` takes the simple-mode branch, with no defaults and with level and pretty left to the environment. */
  lemma EmptyConfigIsSimple()
    ensures ModeOf(EmptyConfig) == SimpleMode
    ensures EmptyConfig.defaultFields.None? && EmptyConfig.level.None? && EmptyConfig.pretty.None?
  {
  }

  /** The closure state of `createGrr`. */
  class Grr {
    var initialized: bool
    /** The decorated logger factory `grr`, unset until the first initialisation. */
    var factory: Option<Sink>
    var options: DecoratorOptions
    /** The buffer `getTestLogs` reads and `clearTestLogs` truncates. */
    var testStore: LogStore
    /** The process-wide context store the instance's `addContext` and `getContext` use. */
    const contexts: ContextStore

    /** Initialised exactly when a factory is set; a capturing factory writes to the buffer `getTestLogs` reads. */
    predicate Valid()
      reads this
    {
      && (initialized <==> factory.Some?)
      && (factory.Some? && factory.value.Capture? ==> factory.value.store == testStore)
    }

    /** `createGrr()`: uninitialised, with an empty test buffer. */
    constructor(contexts: ContextStore)
      ensures Valid() && !initialized && fresh(testStore) && testStore.logs == []
      ensures this.contexts == contexts
    {
      initialized := false;
      factory := None;
      options := DecoratorOptions(None);
      testStore := new LogStore();
      this.contexts := contexts;
    }

    /**
     * The state lazy initialisation leaves, `initGrr({})` with a valid environment: no
     * default fields, and an unused pino instance at GRR_LEVEL's level writing to stdout,
     * pretty-printed when GRR_PRETTY (or, unset, the terminal flag) says so.
     */
    ghost predicate SimpleFromEnv(env: Config.Env)
      reads this, if factory.Some? && factory.value.Pino? then {factory.value.instance} else {}
    {
      && Config.ConfigFromEnv(env).Success?
      && options == DecoratorOptions(None)
      && factory.Some? && factory.value.Pino?
      && factory.value.instance.calls == []
      && factory.value.instance.level == Config.ConfigFromEnv(env).value.level
      && factory.value.instance.destination == (if Config.ConfigFromEnv(env).value.pretty then PrettyStdout(true) else Stdout)
    }

    /**
     * `initGrr`. The environment is read first, so an invalid GRR_LEVEL or GRR_PRETTY
     * fails every mode and leaves the instance as it was. On success the result holds
     * the warning printed, if any.
     */
    method InitGrr(config: GrrConfig, env: Config.Env) returns (r: Result<Option<string>, string>)
      modifies this
      ensures r.Failure? <==> Config.ConfigFromEnv(env).Failure?
      ensures r.Failure? ==> r.error == Config.ConfigFromEnv(env).error
      ensures r.Failure? ==> unchanged(this)
      ensures r.Success? ==> Valid() && initialized && options == DecoratorOptions(config.defaultFields)
      ensures r.Success? ==> (r.value.Some? <==> ModeOf(config) == CustomPinoMode && EnvOverridesSet(env))
      ensures r.Success? && r.value.Some? ==> r.value.value == IgnoredEnvWarning
      ensures r.Success? && ModeOf(config) == TestMode ==>
                fresh(testStore) && testStore.logs == [] && factory == Some(Capture(testStore))
      ensures r.Success? && ModeOf(config) != TestMode ==> testStore == old(testStore)
      ensures r.Success? && ModeOf(config) == CustomPinoMode ==> factory == Some(Pino(config.pino.value))
      ensures r.Success? && ModeOf(config) == TransportsMode ==>
                && factory.Some? && factory.value.Pino? && fresh(factory.value.instance)
                && factory.value.instance.calls == []
                && factory.value.instance.level == config.level.GetOr(Config.ConfigFromEnv(env).value.level)
                && factory.value.instance.destination == Transports(config.transports.value)
      ensures r.Success? && ModeOf(config) == SimpleMode ==>
                && factory.Some? && factory.value.Pino? && fresh(factory.value.instance)
                && factory.value.instance.calls == []
                && factory.value.instance.level == config.level.GetOr(Config.ConfigFromEnv(env).value.level)
                && factory.value.instance.destination ==
                     (if config.pretty.GetOr(Config.ConfigFromEnv(env).value.pretty) then PrettyStdout(true) else Stdout)
    {
      var defaults := Config.ConfigFromEnv(env);
      if defaults.Failure? {
        return Failure(defaults.error);
      }
      var envConfig := defaults.value;
      options := DecoratorOptions(config.defaultFields);
      var warning: Option<string> := None;
      if config.kind == Some(TestType) {
        var sink, store := CreateTestLogger();
        testStore := store;
        factory := Some(sink);
      } else if config.pino.Some? {
        if EnvOverridesSet(env) {
          warning := Some(IgnoredEnvWarning);
        }
        factory := Some(Pino(config.pino.value));
      } else if config.transports.Some? {
        var level := config.level.GetOr(envConfig.level);
        var instance := CreatePinoWithTransports(config.transports.value, level);
        factory := Some(Pino(instance));
      } else {
        var level := if config.level.Some? then config.level.value else envConfig.level;
        var pretty := if config.pretty.Some? then config.pretty.value else envConfig.pretty;
        var instance := CreatePinoInstance(Some(level), Some(pretty), None, env.stdoutIsTTY);
        factory := Some(Pino(instance));
      }
      initialized := true;
      r := Success(warning);
    }

    /** `ensureInitialized`: initialise from the environment alone on first use. */
    method EnsureInitialized(env: Config.Env) returns (err: Option<string>)
      modifies this
      ensures err.Some? <==> !old(initialized) && Config.ConfigFromEnv(env).Failure?
      ensures err.Some? ==> err.value == Config.ConfigFromEnv(env).error && unchanged(this)
      ensures old(initialized) ==> unchanged(this)
      ensures err.None? && old(Valid()) ==> Valid() && initialized
      ensures err.None? && !old(initialized) ==> SimpleFromEnv(env) && fresh(factory.value.instance)
      ensures testStore == old(testStore)
    {
      if !initialized {
        var r := InitGrr(EmptyConfig, env);
        if r.Failure? {
          return Some(r.error);
        }
      }
      err := None;
    }

    /** `grr(category)`: a decorated logger for the category, writing to the current factory's sink. */
    method GetLogger(category: string, env: Config.Env) returns (r: Result<DecoratedLogger, string>)
      requires Valid()
      modifies this
      ensures Valid()
      ensures r.Failure? <==> !old(initialized) && Config.ConfigFromEnv(env).Failure?
      ensures r.Failure? ==> r.error == Config.ConfigFromEnv(env).error
      ensures r.Success? ==>
                && initialized && fresh(r.value) && fresh(r.value.inner)
                && r.value.category == category && r.value.inner.category == category
                && r.value.inner.sink == factory.value
                && r.value.options == options && r.value.contexts == contexts
      ensures r.Success? && !old(initialized) ==> SimpleFromEnv(env) && fresh(factory.value.instance)
      ensures old(initialized) ==> unchanged(this)
    {
      var err := EnsureInitialized(env);
      if err.Some? {
        return Failure(err.value);
      }
      var logger := WithDecoration(factory.value, options, contexts, category);
      r := Success(logger);
    }

    /** `getTestLogs`: what the test buffer holds. */
    method GetTestLogs(env: Config.Env) returns (r: Result<seq<LogEntry>, string>)
      requires Valid()
      modifies this
      ensures Valid()
      ensures r.Failure? <==> !old(initialized) && Config.ConfigFromEnv(env).Failure?
      ensures r.Failure? ==> r.error == Config.ConfigFromEnv(env).error
      ensures testStore == old(testStore)
      ensures r.Success? ==> r.value == testStore.logs
      ensures r.Success? && !old(initialized) ==> SimpleFromEnv(env) && fresh(factory.value.instance)
      ensures old(initialized) ==> unchanged(this)
    {
      var err := EnsureInitialized(env);
      if err.Some? {
        return Failure(err.value);
      }
      r := Success(testStore.GetLogs());
    }

    /** `clearTestLogs`: empty the test buffer in place. */
    method ClearTestLogs(env: Config.Env) returns (err: Option<string>)
      requires Valid()
      modifies this, testStore
      ensures Valid()
      ensures err.Some? <==> !old(initialized) && Config.ConfigFromEnv(env).Failure?
      ensures err.Some? ==> err.value == Config.ConfigFromEnv(env).error && testStore.logs == old(testStore.logs)
      ensures testStore == old(testStore)
      ensures err.None? ==> testStore.logs == []
      ensures err.None? && !old(initialized) ==> SimpleFromEnv(env) && fresh(factory.value.instance)
      ensures old(initialized) ==> unchanged(this)
    {
      err := EnsureInitialized(env);
      if err.Some? {
        return;
      }
      testStore.Clear();
    }
  }

  /**
   * Test mode end to end: a logger of category "api.users" records one entry in the
   * test buffer, whose payload is built from a decoration that keeps the caller's field.
   */
  method TestModeScenario() {
    var contexts := new ContextStore();
    var g := new Grr(contexts);
    var env := Config.Env(None, None, false);
    assert Config.ParseLevel(None) == Success(Info);
    var init := g.InitGrr(GrrConfig(Some(TestType), None, None, None, None, None), env);
    assert init == Success(None);
    var got := g.GetLogger("api.users", env);
    var logger := got.value;
    var fields := map["userId" := Num(42)];
    ghost var decorated := logger.Info("request received", Some(fields));
    var logs := g.GetTestLogs(env);
    assert logs.value == [LogEntry(Info, "api.users", "request received", Payload(decorated))];
    assert decorated["userId"] == Num(42);
  }
}
