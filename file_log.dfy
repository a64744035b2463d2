/**
 * `add_file_log` of app/core/log.py: builds a Rotator from the settings
 * (by default 10_000_000 bytes and "00:00"), installs the patcher and adds
 * the rotating file sink, queued through a spawn context when there are
 * several workers.
 */
module FileLog {
  import opened Wrappers
  import opened Loguru
  import Rotation

  /**
   * The two rotation settings: `log_rotation_size` and
   * `strptime(log_rotation_time, "%H:%M")`, whose seconds are zero.
   */
  datatype Settings = Settings(rotationSize: int, rotationTime: Rotation.TimeOfDay)
  {
    predicate Valid()
    {
      rotationTime.Valid() && rotationTime.second == 0
    }
  }

  /** The defaults: 10_000_000 bytes, rotation at "00:00". */
  const DefaultSettings: Settings := Settings(10_000_000, Rotation.TimeOfDay(0, 0, 0))
  const Retention: string := "10 Days"
  const Compression: string := "zip"

  /** How the file sink is shared between processes. */
  datatype QueueOptions = QueueOptions(enqueue: bool, context: Option<MpContext>)

  /**
   * Several workers: records are queued and the queue is built from a spawn
   * context. One worker (or fewer): no queue, no context.
   */
  function QueueOptionsFor(workers: int): (q: QueueOptions)
    ensures q.enqueue <==> workers > 1
    ensures q.enqueue <==> q.context.Some?
    ensures q.context.Some? ==> q.context.value == Spawn
  {
    if workers > 1 then QueueOptions(true, Some(Spawn)) else QueueOptions(false, None)
  }

  /**
   * `add_file_log(log_path, _format, patcher, workers)` at clock time `now`,
   * with `logLevel` and `jsonLogs` the module's LOG_LEVEL and JSON_LOGS and
   * `settings` the application settings. The
   * rotator it builds is returned so that callers can consult it.
   */
  method AddFileLog(logger: Logger, logPath: string, format: Option<string>, patcher: Option<Patcher>,
                    workers: int, settings: Settings, now: int, logLevel: int, jsonLogs: bool)
    returns (rotator: Rotation.Rotator)
    requires settings.Valid()
    modifies logger.core
    ensures fresh(rotator)
    ensures rotator.sizeLimit == settings.rotationSize
    ensures rotator.timeLimit == Rotation.InitialDeadline(now, settings.rotationTime)
    ensures logger.core == old(logger.core)
    ensures logger.core.patcher == if patcher.Some? then patcher else old(logger.core.patcher)
    ensures logger.core.levels == old(logger.core.levels)
    ensures fresh(logger.core.handlers)
    ensures logger.core.handlers.sinks == old(logger.core.handlers.sinks) + [FileSink(logPath, FileOptions(
      logLevel, format, QueueOptionsFor(workers).enqueue, false, rotator,
      Retention, Compression, jsonLogs, QueueOptionsFor(workers).context))]
  {
    rotator := new Rotation.Rotator(settings.rotationSize, settings.rotationTime, now);
    var queue := QueueOptionsFor(workers);
    logger.Configure(patcher);
    logger.Add(FileSink(logPath, FileOptions(
      logLevel, format, queue.enqueue, false, rotator,
      Retention, Compression, jsonLogs, queue.context)));
  }
}
