/**
 * `InterceptHandler.emit` of app/core/log.py: re-emits a standard-library
 * log record through loguru, choosing the level and walking the call stack
 * out of the `logging` module's own file (`logging/__init__.py`, not the
 * rest of the package) and of log.py itself. The stack is the
 * sequence of file names of its frames, innermost (`logging.currentframe()`)
 * first; index k + 1 is the `f_back` of index k.
 */
module Intercept {
  import opened Wrappers
  import opened Loguru

  /** The fields of a `logging.LogRecord` that `emit` reads. */
  datatype StdRecord = StdRecord(levelName: string, levelNo: int, message: string, excInfo: Option<string>)

  /**
   * `logger.level(record.levelname).name`, or `record.levelno` when the
   * lookup raises ValueError because loguru has no level of that name.
   */
  function ChooseLevel(levels: map<string, int>, record: StdRecord): (l: Level)
    ensures l.Named? <==> record.levelName in levels
    ensures l.Named? ==> l.name == record.levelName
    ensures l.Numeric? ==> l.no == record.levelNo
  {
    if record.levelName in levels then Named(record.levelName) else Numeric(record.levelNo)
  }

  predicate EndsWith(s: string, suffix: string)
  {
    |suffix| <= |s| && s[|s| - |suffix|..] == suffix
  }

  /** `s.rstrip("c")`. */
  function RStripC(s: string): (r: string)
    ensures r <= s
    ensures r == [] || r[|r| - 1] != 'c'
    ensures forall i :: |r| <= i < |s| ==> s[i] == 'c'
  {
    if s != [] && s[|s| - 1] == 'c' then RStripC(s[..|s| - 1]) else s
  }

  /**
   * The `logging` module's file name as compared against frames: a ".pyc"
   * path loses its trailing "c", any other path is kept.
   */
  function LoggingFileName(raw: string): (r: string)
    ensures EndsWith(raw, ".pyc") ==> r == raw[..|raw| - 1] && EndsWith(r, ".py")
    ensures !EndsWith(raw, ".pyc") ==> r == raw
  {
    if EndsWith(raw, ".pyc") then
      var py := raw[..|raw| - 1];
      assert py[|py| - 1] == 'y' by {
        assert raw[|raw| - 4..] == ".pyc";
        assert py[|py| - 1] == raw[|raw| - 2];
      }
      assert raw == py + ['c'];
      assert raw[..|raw| - 1] == py;
      assert py[|py| - 3..] == ".py" by {
        assert raw[|raw| - 4..] == ".pyc";
      }
      RStripC(raw)
    else raw
  }

  /**
   * `depth` is where the walk stops: every frame before it belongs to a
   * skipped file, and it is either the outermost frame or one outside them.
   */
  predicate IsCallerDepth(stack: seq<string>, skip: set<string>, depth: nat)
  {
    && depth < |stack|
    && (forall j :: 0 <= j < depth ==> stack[j] in skip)
    && (depth == |stack| - 1 || stack[depth] !in skip)
  }

  /** The stopping point of the walk is determined by the stack. */
  lemma CallerDepthUnique(stack: seq<string>, skip: set<string>, d1: nat, d2: nat)
    requires IsCallerDepth(stack, skip, d1) && IsCallerDepth(stack, skip, d2)
    ensures d1 == d2
  {
  }

  /**
   * The `while frame.f_back and frame.f_code.co_filename in (...)` loop:
   * it always stops, and `depth` counts the frames it stepped over.
   */
  method FindCallerDepth(stack: seq<string>, skip: set<string>) returns (depth: nat)
    requires |stack| > 0
    ensures IsCallerDepth(stack, skip, depth)
  {
    depth := 0;
    while depth + 1 < |stack| && stack[depth] in skip
      invariant depth < |stack|
      invariant forall j :: 0 <= j < depth ==> stack[j] in skip
      decreases |stack| - depth
    {
      depth := depth + 1;
    }
  }

  /**
   * `InterceptHandler.emit(record)`: exactly one log call reaches loguru,
   * with the chosen level, the record's message and exception, and the
   * depth of the first frame outside the `logging` module file and log.py.
   */
  method Emit(logger: Logger, record: StdRecord, stack: seq<string>, loggingFile: string, logPyFile: string)
    requires |stack| > 0
    modifies logger`calls
    ensures |logger.calls| == |old(logger.calls)| + 1
    ensures logger.calls[..|old(logger.calls)|] == old(logger.calls)
    ensures var c := logger.calls[|old(logger.calls)|];
      && c.level == ChooseLevel(logger.core.levels, record)
      && c.message == record.message
      && c.exception == record.excInfo
      && IsCallerDepth(stack, {LoggingFileName(loggingFile), logPyFile}, c.depth)
  {
    var level := ChooseLevel(logger.core.levels, record);
    var loggingName := LoggingFileName(loggingFile);
    var depth := FindCallerDepth(stack, {loggingName, logPyFile});
    logger.Log(LogCall(depth, record.excInfo, level, record.message));
  }

  /** A record at a standard level keeps its name; a custom one falls back to its number. */
  lemma StandardAndCustomLevels(record: StdRecord)
    ensures record.levelName == "WARNING" ==> ChooseLevel(DefaultLevels, record) == Named("WARNING")
    ensures record.levelName == "Level 5" ==> ChooseLevel(DefaultLevels, record) == Numeric(record.levelNo)
  {
  }
}
