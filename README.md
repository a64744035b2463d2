# Logging core of a FastAPI service template, in Dafny

This project models the logging and request-correlation core of a FastAPI
service template, and proves properties of that model:

- **Level resolution** (`LogLevel`). `get_log_level` maps the `LOG_LEVEL`
  environment variable to a severity of Python's standard `logging`
  module. `JSON_LOGS` is read from its own variable.
- **The bridge from `logging` to loguru** (`Intercept`).
  `InterceptHandler.emit` picks loguru's level by name, or falls back to
  the record's number. It then walks the call stack out of the `logging`
  module's own file (`logging/__init__.py`) and out of `log.py`, and makes
  exactly one loguru call.
- **`setup_logging`** (`StdLogging`). It takes over the standard library's
  root logger. It also empties the handlers of the six framework loggers and
  of every registered logger, and makes each of them propagate.
- **The rotation policy** (`Rotation`). This is the `Rotator`: a size limit
  and a daily deadline, consulted before every write to the log file.
- **`add_file_log`** (`FileLog`). It builds the rotator, installs the
  record patcher, and adds the rotating file sink. The sink is queued
  through a spawn context when there are several workers.
- **Request correlation** (`Middleware`). This covers the `request_id`
  context variable, `get_request_id`, the `patch_log` patcher and the
  middleware's `dispatch`.
- **`MyConfig`** (`ServerConfig`). This is the uvicorn configuration that
  carries a shallow copy of loguru's core to spawned workers.
  `configure_logging` tells a worker from the original process by object
  identity of the handler table.
- **`set_parameter_default`** (`View`). It rewrites a function signature
  for FastAPI class-based views.

`Loguru` models the small part of the loguru library that this core
touches:

- the logger's `_core`;
- the core's handler table, patcher and level table;
- the calls the logger receives.

Loguru's `add` is modelled as copy-on-write of the handler table.
`server_config.py:42-44` relies on exactly that behaviour.

Conventions of the model:

- Time is integer seconds on a local clock, and a day is 86400 seconds.
- Environment variables are a `map<string, string>`.
- A call stack is the sequence of its frames' file names, innermost first.
- A parameter default is `Some(v)`, or `None` for `Parameter.empty`.

The identifier of a request is a parameter, because the source draws it from
`uuid4`. The behaviour of the downstream application is a parameter too.

## Model

| member | source | states |
|---|---|---|
| LogLevel.LevelSetting | app/core/log.py:18-19 | the setting is the variable's value, or "" when it is unset |
| LogLevel.Lower | app/core/log.py:21-25 | lower-casing keeps the length and lower-cases each ASCII letter in place |
| LogLevel.GetLogLevel | app/core/log.py:16-29 | the level is always one of DEBUG, INFO, WARNING and ERROR. It is ERROR, WARNING or DEBUG exactly when the lower-cased setting is "error", "warning" or "debug". It is INFO for any other value and for an unset variable |
| LogLevel.JsonLogs | app/core/log.py:61 | JSON output is on exactly when `JSON_LOGS` is set to the string "1" |
| LogLevel.LowerMatchesAnyCase | app/core/log.py:21-25 | a setting lower-cases to a lower-case word exactly when it spells that word with each letter in either case |
| LogLevel.NamedLevelInAnyCase | app/core/log.py:21-26 | any letter-case spelling of "error", "warning" or "debug" selects that level |
| LogLevel.CaseInsensitive | app/core/log.py:21-29 | two settings that differ only in letter case give the same level |
| LogLevel.DefaultsToInfo | tests/test_log.py:19-43 | an unset variable, "" and "info" all give INFO |
| Intercept.ChooseLevel | app/core/log.py:37-41 | the level is loguru's level of the same name exactly when loguru knows the name, and otherwise the record's number |
| Intercept.StandardAndCustomLevels | tests/test_log.py:47-92 | a standard level name is kept, and a custom one falls back to its number |
| Intercept.RStripC | app/core/log.py:48 | `rstrip("c")` gives a prefix that does not end in "c", and only "c"s were removed |
| Intercept.LoggingFileName | app/core/log.py:45-48 | a ".pyc" path loses exactly its last character and then ends in ".py". Any other path is kept |
| Intercept.CallerDepthUnique | app/core/log.py:50-52 | the frame where the stack walk stops is determined by the stack |
| Intercept.FindCallerDepth | app/core/log.py:44-52 | the walk always stops. Every frame it skipped belongs to the `logging` module file or `log.py`, and the frame it stops at is the outermost one or lies outside both |
| Intercept.Emit | app/core/log.py:35-57 | exactly one call reaches loguru, and earlier calls are kept. The call carries the chosen level, the record's message, its exception, and the depth of the first frame outside the `logging` module file and `log.py` |
| StdLogging.Registered | app/core/log.py:94-95 | requesting loggers extends the registered names as a prefix. Afterwards exactly the old and the requested names are registered, each once |
| StdLogging.RegisteredAgain | app/core/log.py:84-97 | requesting the same loggers a second time registers nothing new |
| StdLogging.RegisteredKnown | app/core/log.py:94-95 | requesting only registered names leaves the registry order unchanged |
| StdLogging.RootHandlers | app/core/log.py:73-76 | the root gets the intercept handler first, then at most the stream handler, and never a second intercept handler |
| StdLogging.Registry.constructor | app/core/log.py:73-78 | before any setup the root logger is at WARNING, the standard library's default, with no handlers and no named loggers |
| StdLogging.FunnelledEntry | app/core/log.py:95-97 | a funnelled logger has no handlers and propagates. It keeps its level, or is NOTSET when new |
| StdLogging.FunnelAllFacts | app/core/log.py:84-97 | funnelling a list of names registers exactly those names, funnels each of them, and leaves every other logger as it was. Levels are kept, and new loggers are NOTSET |
| StdLogging.RegisteredSnoc | app/core/log.py:94-95 | requesting one more name registers it after the earlier requests |
| StdLogging.Registry.GetLogger | app/core/log.py:95 | an unknown name is registered with no handlers, propagation on and level NOTSET. A known name is left alone |
| StdLogging.Registry.Funnel | app/core/log.py:96-97 | the logger's handlers are cleared and it propagates. Nothing else changes |
| StdLogging.Registry.FunnelOne | app/core/log.py:95-97 | one loop pass: the name is registered if new, and the logger map changes only at that name, to its funnelled entry |
| StdLogging.Registry.FunnelFixed | app/core/log.py:84-97 | the fixed names are registered in order, and the loggers become `FunnelAll` of the fixed names. So each fixed logger is funnelled, every other logger keeps its handlers, `propagate` and level, and new loggers are NOTSET |
| StdLogging.Registry.FunnelRegistered | app/core/log.py:94-97 | every registered logger is funnelled. The set of loggers and their levels are unchanged |
| StdLogging.Registry.SetupLogging | app/core/log.py:64-97 | the root handler list is assigned, not appended to, and the root level is LOG_LEVEL. The six fixed loggers are registered, every registered logger is funnelled, and levels of named loggers are kept |
| StdLogging.SetupTwice | app/core/log.py:64-97 | running `setup_logging` twice leaves one intercept handler on the root and no extra loggers |
| Rotation.TimeOfDay.Seconds | app/core/log.py:106 | a valid time of day lies within one day |
| Rotation.InitialDeadline | app/core/log.py:103-111 | the first deadline falls at the configured time of day, strictly after the current time and at most one day ahead |
| Rotation.Decide | app/core/log.py:113-120 | rotation happens exactly when the size trigger or the time trigger fires. The size limit never changes. The deadline moves, by exactly one day, only when the time trigger fires without the size trigger |
| Rotation.Rotator.constructor | app/core/log.py:102-111 | the rotator holds the given size and the first deadline |
| Rotation.Rotator.ShouldRotate | app/core/log.py:113-120 | the file is sought to its end, and the answer and the new state are the ones `Decide` gives |
| Rotation.DeadlineCountsTimeCuts | app/core/log.py:113-120 | over any run of writes the size limit is kept and the deadline never moves back. It has moved exactly one day per write that rotated on the time trigger (size quiet, record past the deadline), and there is at most one such rotation per write |
| Rotation.OneCutPerCrossing | app/core/log.py:117-119 | after a time-triggered rotation, a record within a day of the old deadline does not rotate again |
| Rotation.SkewMovesOneDay | app/core/log.py:117-118 | a record far past the deadline moves it by one day only, so the next such record rotates again |
| Rotation.SizeWinsWithoutStateChange | app/core/log.py:115-116 | when the size trigger fires, the deadline is not touched |
| Rotation.ExactLimitDoesNotRotate | app/core/log.py:115 | reaching the size limit exactly does not rotate |
| FileLog.QueueOptionsFor | app/core/log.py:128-133 | records are queued exactly when there is more than one worker, and exactly then a spawn context is passed |
| FileLog.AddFileLog | app/core/log.py:123-149 | the rotator has the configured size and first deadline. The patcher is installed when one is given, and the level table is kept. The core gets a new handler table: the old sinks plus the file sink with the listed options |
| Loguru.Logger.Add | app/core/server_config.py:42-44 | the core gets a new handler table with the sink appended. Patcher and levels are kept |
| Loguru.Logger.Configure | app/core/log.py:136 | the patcher is replaced only when one is given. Nothing else changes |
| Loguru.Logger.Log | app/core/log.py:55-57 | the call is appended to the calls the logger has received |
| Middleware.RequestIdVar.constructor | app/core/middleware.py:10 | a fresh variable is unbound, which is its `default=None` |
| Middleware.RequestIdVar.Set | app/core/middleware.py:17 | the variable holds the new id, and the token remembers the previous binding |
| Middleware.RequestIdVar.Reset | app/core/middleware.py:33 | the variable is restored to the binding the token remembers |
| Middleware.SetThenReset | app/core/middleware.py:17-33 | a set followed by the reset of its token leaves the binding as it was |
| Middleware.GetRequestId | app/core/middleware.py:38-40 | the id is the current binding, or `None` when nothing is bound |
| Middleware.Patched | app/core/middleware.py:43-44 | `request_id` is always present and holds the binding. Every other key of `extra` is kept with its value, and no key is added |
| Middleware.PatchLog | app/core/middleware.py:43-44 | the record's `extra` becomes the patched map |
| Middleware.Line | app/core/log.py:136 | a log line keeps its message. Its `extra` is patched with the binding exactly when `patch_log` is the core's patcher, and is the call's fields otherwise |
| Middleware.PatchedLineCarriesId | app/core/middleware.py:43-44 | with `patch_log` installed, every line carries the bound request id |
| Middleware.UnpatchedLineLacksId | app/core/middleware.py:43-44 | without a patcher, a line carries no request id unless its fields had one |
| Middleware.Journal.Info | app/core/middleware.py:20-30 | a log call appends one line, built under the patcher that the logger's core holds |
| Middleware.Journal.InfoAll | app/core/middleware.py:28 | the application's log calls during `call_next` append their lines in order, each built under the current binding |
| Middleware.RequestFields | app/core/middleware.py:20-26 | the first line's fields are exactly `method`, `path`, `client` and `ua`, with the request's values. None of them is `request_id` |
| Middleware.SetHeader | app/core/middleware.py:31 | setting a header stores it under its lower-cased name and keeps every other header. Lower-cased header names stay lower-cased |
| Middleware.HeaderSetUnderAnySpelling | app/core/middleware.py:31 | on lower-cased headers, after the set, the only header under any spelling of the name holds the new value |
| Middleware.RequestLogShape | app/core/middleware.py:17-30 | a request's lines are the received line, then the application's lines, then the finished line when the application returned |
| Middleware.RequestLinesCarryId | app/core/middleware.py:17-30 | with `patch_log` installed, every line of a request carries the fresh id, the application's own lines included |
| Middleware.BeginRequest | app/core/middleware.py:17-28 | the fresh id is bound, the token remembers the previous binding, and the received line and the application's lines are logged under the fresh id |
| Middleware.FinishRequest | app/core/middleware.py:30-33 | the finished line is logged under the current binding, the header holds that binding's id, and the token's binding is restored |
| Middleware.Dispatch | app/core/middleware.py:16-35 | the fresh id is bound before the application runs, so the received line, every line the application logs and the finished line are all built under it (`RequestLog`). On a response, the `x-request-id` header holds that id under any earlier spelling, and the previous binding is restored. When the application raises, the exception propagates, no finished line is logged and the fresh id stays bound |
| ServerConfig.MyConfig.constructor | app/core/server_config.py:15-21 | the configuration holds a new core object that shares the global core's handler table, patcher and levels |
| ServerConfig.MyConfig.ConfigureLogging | app/core/server_config.py:24-48 | in a spawned worker (tables differ) the global core becomes the copy, and the copy gains the console sink. In the parent the global core is kept and gets a new table with the console sink, while the copy's table is untouched. Either way the resulting core keeps its patcher and levels, the core that is not adopted is left untouched, and the logger's calls are kept. In both branches uvicorn's setup, one `add` and one `setup_logging()` run, with the registry state `setup_logging` gives, including the loggers' levels. Because uvicorn's own setup has no effect here, that registry state describes the model only: the real uvicorn setup first sets levels and handlers on the `uvicorn*` loggers |
| ServerConfig.ParentStartup | tests/test_server_config.py:120-155 | in the original process the copy handed to workers keeps the table without the console sink, and the global core's patcher and levels |
| ServerConfig.WorkerStartup | tests/test_server_config.py:160-193 | a spawned worker adopts the configuration's core, which gains the console sink after the parent's sinks. The worker's previous core is left untouched |
| View.Names | app/core/view.py:44 | the names of a parameter list, in order |
| View.CheckParameterOrder | app/core/view.py:58 | the kind check that building the new signature runs accepts a list exactly when its kinds never go down the order (`KindsOrdered`) |
| View.Rewrite | app/core/view.py:45-55 | names are kept. The named parameter gets the default and keeps its kind, except that a variadic one raises. Other positional parameters become keyword-only and keep their defaults. All others pass through |
| View.RewriteAll | app/core/view.py:43-55 | building the list raises exactly when a parameter of that name is variadic. Otherwise the list has one rewritten entry per parameter, in order |
| View.SetParameterDefault | app/core/view.py:28-59 | an unknown parameter fails the assertion. A variadic parameter raises. A rewritten list with kinds out of order raises. Otherwise the signature becomes the rewritten list and the same function is returned. Failures leave the signature unchanged |
| View.SameNames | app/core/view.py:43-55 | a rewritten signature has the same names in the same order |
| View.RankNeverDrops | app/core/view.py:46-55 | no parameter's kind moves down the kind order |
| View.OrderKeptForLeadingParam | app/core/view.py:20-23 | when the parameter is first, as `self` is, is not `**kwargs`, and there is no `*args`, the rewrite succeeds and the signature is validly ordered |
| View.VariadicParamRejected | app/core/view.py:46-48 | naming `**kwargs` makes the call raise |
| View.OrderBrokenExactly | app/core/view.py:43-58 | for a valid signature whose rewrite does not raise, the rewritten list is out of order exactly when some other positional parameter comes before `param` while `param` is positional, or before `*args` |
| View.VarPositionalBreaksOrder | app/core/view.py:50-58 | for `(self, a, *args)` with `"self"`, the rewritten list is out of order |
| View.LaterParamBreaksOrder | app/core/view.py:46-58 | for `(a, self)` with `"self"`, the rewritten list is out of order |

## Left out

- LogLevel.Lower: only ASCII letters are lower-cased. `str.lower` also maps non-ASCII letters, but no non-ASCII string lower-cases to "error", "warning" or "debug", so the level choice is unaffected.
- The bare `except` in `get_log_level` (log.py:27-28) is not modelled. Reading a map and comparing strings cannot raise here.
- `logging.getLogger` placeholders and logger hierarchy (parents and children) are not modelled. The registry is a flat list of names.
- `Intercept.Emit`: the frame walk is over a given list of file names. The live `logging.currentframe()` is not part of this model.
- The behaviour of loguru sinks is not modelled: file writes, formatting, serialisation, compression, retention, enqueueing and handler ids. `add` is modelled only by the handler table it produces.
- The Rotator works in whole seconds on a clock without daylight-saving jumps. `now.replace` keeps the current microseconds, and `timestamp()` compares floats; neither is modelled.
- Parsing `log_rotation_time` with `strptime("%H:%M")` is not modelled. It is the `Settings` value, whose seconds are zero. The defaults (10_000_000 bytes, "00:00") are `FileLog.DefaultSettings`.
- `Middleware.RequestIdVar`: a single execution context is modelled. Per-task isolation of `ContextVar`, concurrency, and the errors of reusing a token are left out.
- The request id that `uuid4` draws is the parameter `freshId`.
- uvicorn's own `configure_logging` is recorded as a call only, and its effects are not modelled. So the registry facts `ServerConfig.MyConfig.ConfigureLogging` states hold for the model only: the real one also sets levels and handlers on the `uvicorn*` loggers first.
- `MyConfig.__init__` also runs the rest of uvicorn's `Config.__init__`, which calls `configure_logging`. Here the two steps are separate members, which `ServerConfig.ParentStartup` chains.
- `View.SetParameterDefault`: of the checks `inspect` makes, two are modelled: the kind order, and that a variadic parameter takes no default. The default-order and duplicate-name checks cannot fail after the rewrite, because only the named parameter stays positional and names are kept. `inspect.signature` failing on a non-callable is not modelled.
- `Middleware.Downstream`: the application is given by the log calls it makes and by its result. Everything else it does, including changing the binding itself, is not modelled.
- Middleware.Journal.Info: the lines written by `logger.info` are kept in their own journal, apart from the `Loguru.Logger.calls` that `Intercept.Emit` produces. A patcher other than `patch_log` is treated as leaving the record as it was; the application installs only `patch_log` (main.py:134-136).
- `Middleware.Response`: headers are a map from lower-cased names to one value each. Repeated header lines and the latin-1 encoding of Starlette's raw header list are not modelled.
- Python's `assert` is always enforced here. Under `python -O` the missing-parameter case would not raise.
- `BaseView.__set_name__` and the route helpers of `view.py`, and `main.py`, `kombu_message.py`, `fastapi_app.py` and `util.py`, are not part of this model.
