/**
 * `MyConfig` of app/core/server_config.py: the uvicorn configuration keeps a
 * shallow copy of loguru's core, whose handler table then holds only the
 * file sink and can be handed to spawned workers. `configure_logging` tells
 * a spawned worker from the original process by whether the global core's
 * handler table is the very object the copy holds.
 */
module ServerConfig {
  import opened Loguru
  import StdLogging
  import LogLevel

  /** The calls `configure_logging` makes, in order. */
  datatype Call =
    | SuperConfigureLogging
    | LoguruAdd(sink: Sink)
    | SetupLogging(needStreamHandler: bool)

  /** The console sink both branches add: stderr at INFO. */
  const ConsoleSink: Sink := StreamSink(Stderr, LogLevel.INFO)

  /** The calls of either branch: uvicorn's own setup, one console sink, one setup. */
  const ConfigureCalls: seq<Call> :=
    [SuperConfigureLogging, LoguruAdd(ConsoleSink), SetupLogging(false)]

  class MyConfig
  {
    var core: Core

    /**
     * `MyConfig.__init__` up to `super().__init__`: `copy.copy(logger._core)`,
     * a new core object that shares the global core's handler table.
     */
    constructor(logger: Logger)
      ensures fresh(core)
      ensures core != logger.core
      ensures core.handlers == logger.core.handlers
      ensures core.patcher == logger.core.patcher && core.levels == logger.core.levels
    {
      core := new Core(logger.core.handlers, logger.core.patcher, logger.core.levels);
    }

    /**
     * `MyConfig.configure_logging`, with `registry` the standard-library
     * loggers and `logLevel` LOG_LEVEL. After uvicorn's own setup: when the
     * global handler table is not the copy's, the process is a spawned
     * worker and the global core becomes the copy; otherwise the global core
     * is kept. Either way stderr is added at INFO to the (new) global core,
     * and `setup_logging()` runs once.
     */
    method ConfigureLogging(logger: Logger, registry: StdLogging.Registry, logLevel: int)
      returns (calls: seq<Call>)
      requires registry.Valid()
      modifies logger, logger.core, core, registry
      ensures calls == ConfigureCalls
      ensures logger.calls == old(logger.calls)
      ensures old(logger.core.handlers) != old(core.handlers) ==>
        && logger.core == core
        && fresh(core.handlers)
        && core.handlers.sinks == old(core.handlers.sinks) + [ConsoleSink]
        && core.patcher == old(core.patcher) && core.levels == old(core.levels)
        && (old(logger.core) != core ==> unchanged(old(logger.core)))
      ensures old(logger.core.handlers) == old(core.handlers) ==>
        && logger.core == old(logger.core)
        && fresh(logger.core.handlers)
        && logger.core.handlers.sinks == old(logger.core.handlers.sinks) + [ConsoleSink]
        && logger.core.patcher == old(logger.core.patcher) && logger.core.levels == old(logger.core.levels)
        && (logger.core != core ==> unchanged(core))
      ensures registry.Valid()
      ensures registry.rootHandlers == StdLogging.RootHandlers(false)
      ensures registry.rootLevel == logLevel
      ensures registry.names == StdLogging.Registered(old(registry.names), StdLogging.FixedLoggers)
      ensures forall n :: n in registry.loggers ==> StdLogging.Funnelled(registry.loggers[n])
      ensures forall n :: n in registry.loggers ==>
        registry.loggers[n].level == if n in old(registry.loggers) then old(registry.loggers)[n].level else StdLogging.NOTSET
    {
      calls := [SuperConfigureLogging];
      if logger.core.handlers != core.handlers {
        logger.core := core;
        logger.Add(ConsoleSink);
        calls := calls + [LoguruAdd(ConsoleSink)];
        registry.SetupLogging(false, logLevel);
        calls := calls + [SetupLogging(false)];
      } else {
        logger.Add(ConsoleSink);
        calls := calls + [LoguruAdd(ConsoleSink)];
        registry.SetupLogging(false, logLevel);
        calls := calls + [SetupLogging(false)];
      }
    }
  }

  /**
   * The original process: building the configuration and configuring
   * logging keeps the global core, gives it a new table with the console
   * sink, and leaves the copy's table, the one handed to workers, as it was.
   */
  method ParentStartup(logger: Logger, registry: StdLogging.Registry, logLevel: int)
    returns (config: MyConfig)
    requires registry.Valid()
    modifies logger, logger.core, registry
    ensures logger.core == old(logger.core) && logger.core != config.core
    ensures config.core.handlers == old(logger.core.handlers)
    ensures config.core.patcher == old(logger.core.patcher) && config.core.levels == old(logger.core.levels)
    ensures logger.core.handlers.sinks == old(logger.core.handlers.sinks) + [ConsoleSink]
  {
    config := new MyConfig(logger);
    var calls := config.ConfigureLogging(logger, registry, logLevel);
  }

  /**
   * A spawned worker: its own global core has a different table, so it
   * adopts the configuration's core, whose table gains the console sink
   * after the sinks that came from the parent.
   */
  method WorkerStartup(config: MyConfig, logger: Logger, registry: StdLogging.Registry, logLevel: int)
    requires registry.Valid()
    requires logger.core.handlers != config.core.handlers
    modifies logger, logger.core, config.core, registry
    ensures logger.core == config.core
    ensures unchanged(old(logger.core))
    ensures config.core.handlers.sinks == old(config.core.handlers.sinks) + [ConsoleSink]
  {
    var calls := config.ConfigureLogging(logger, registry, logLevel);
  }
}
