/**
 * The part of loguru's global logger that app/core touches: the logger's
 * `_core`, the core's handler table, patcher and level table, and the log
 * calls the logger receives. Loguru itself is not part of this model; its
 * `add` is modelled as copy-on-write of the handler table, which is what the
 * comment at app/core/server_config.py:42-44 relies on.
 */
module Loguru {
  import opened Wrappers
  import Rotation

  datatype Stream = Stderr | Stdout

  /** A `multiprocessing` start context. */
  datatype MpContext = Spawn

  /** A record patcher installed with `logger.configure(patcher=...)`. */
  datatype Patcher = PatchRequestId | OtherPatcher(name: string)

  /** The keyword arguments `add_file_log` passes to `logger.add`. */
  datatype FileOptions = FileOptions(
    level: int,
    format: Option<string>,
    enqueue: bool,
    backtrace: bool,
    rotation: Rotation.Rotator,
    retention: string,
    compression: string,
    serialize: bool,
    context: Option<MpContext>)

  datatype Sink =
    | FileSink(path: string, options: FileOptions)
    | StreamSink(stream: Stream, level: int)

  /** Level chosen for a structured log call: a level name or a bare number. */
  datatype Level = Named(name: string) | Numeric(no: int)

  /** One `logger.opt(depth=..., exception=...).log(level, message)` call. */
  datatype LogCall = LogCall(depth: nat, exception: Option<string>, level: Level, message: string)

  /** loguru's built-in levels, by name. */
  const DefaultLevels: map<string, int> := map[
    "TRACE" := 5, "DEBUG" := 10, "INFO" := 20, "SUCCESS" := 25,
    "WARNING" := 30, "ERROR" := 40, "CRITICAL" := 50]

  /** A handlers table (`core.handlers`). Loguru never edits one in place. */
  class HandlerTable
  {
    const sinks: seq<Sink>

    constructor(sinks: seq<Sink>)
      ensures this.sinks == sinks
    {
      this.sinks := sinks;
    }
  }

  /** `logger._core`. */
  class Core
  {
    var handlers: HandlerTable
    var patcher: Option<Patcher>
    var levels: map<string, int>

    constructor(handlers: HandlerTable, patcher: Option<Patcher>, levels: map<string, int>)
      ensures this.handlers == handlers && this.patcher == patcher && this.levels == levels
    {
      this.handlers := handlers;
      this.patcher := patcher;
      this.levels := levels;
    }
  }

  /** The global `logger`. */
  class Logger
  {
    var core: Core
    var calls: seq<LogCall>

    constructor(core: Core)
      ensures this.core == core && calls == []
    {
      this.core := core;
      calls := [];
    }

    /** `logger.add(sink)`: the core gets a new table holding the old sinks and the new one. */
    method Add(sink: Sink)
      modifies core
      ensures fresh(core.handlers)
      ensures core.handlers.sinks == old(core.handlers.sinks) + [sink]
      ensures core.patcher == old(core.patcher) && core.levels == old(core.levels)
    {
      var table := new HandlerTable(core.handlers.sinks + [sink]);
      core.handlers := table;
    }

    /** `logger.configure(patcher=p)`: installs `p` when one is given, and changes nothing else. */
    method Configure(patcher: Option<Patcher>)
      modifies core
      ensures core.patcher == if patcher.Some? then patcher else old(core.patcher)
      ensures core.handlers == old(core.handlers) && core.levels == old(core.levels)
    {
      if patcher.Some? {
        core.patcher := patcher;
      }
    }

    /** A structured log call reaches the logger. */
    method Log(call: LogCall)
      modifies this`calls
      ensures calls == old(calls) + [call]
    {
      calls := calls + [call];
    }
  }
}
