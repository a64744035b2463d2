/**
 * `setup_logging` of app/core/log.py over the standard library's logger
 * registry: the root logger's handlers and level, and `loggerDict`, the
 * named loggers in the order they were first requested.
 */
module StdLogging {
  import LogLevel

  /** A standard-library handler: the intercept bridge or a console stream handler. */
  datatype Handler = InterceptHandler | StreamHandler(format: string, dateFormat: string)

  /** The state of one named `logging.Logger`. */
  datatype StdLogger = StdLogger(handlers: seq<Handler>, propagate: bool, level: int)

  const NOTSET: int := 0

  /** The loggers `setup_logging` names explicitly, in its order. */
  const FixedLoggers: seq<string> :=
    ["uvicorn", "uvicorn.access", "uvicorn.error", "fastapi", "asyncio", "starlette"]

  /** Format of the console stream handler `setup_logging` builds. */
  const StreamFormat: string :=
    "%(asctime)s - %(levelname)s - %(filename)s:%(lineno)d - %(funcName)s - %(message)s"
  const StreamDateFormat: string := "%Y-%m-%d %H:%M:%S"

  predicate Distinct(s: seq<string>)
  {
    forall i, j :: 0 <= i < j < |s| ==> s[i] != s[j]
  }

  /** A logger whose own handlers are gone and whose records go to the root. */
  predicate Funnelled(l: StdLogger)
  {
    l.handlers == [] && l.propagate
  }

  /**
   * The `loggerDict` key order after `logging.getLogger(n)` for each `n` of
   * `add` in turn: a name not yet registered is appended.
   */
  function Registered(names: seq<string>, add: seq<string>): (r: seq<string>)
    ensures names <= r
    ensures forall n :: n in r <==> n in names || n in add
    ensures Distinct(names) ==> Distinct(r)
    decreases |add|
  {
    if add == [] then names
    else
      var before := Registered(names, add[..|add| - 1]);
      var n := add[|add| - 1];
      assert forall m :: m in add <==> m in add[..|add| - 1] || m == n by {
        assert add == add[..|add| - 1] + [n];
      }
      if n in before then before else before + [n]
  }

  /** Requesting the same names again registers nothing new. */
  lemma {:induction false} RegisteredAgain(names: seq<string>, add: seq<string>)
    ensures Registered(Registered(names, add), add) == Registered(names, add)
  {
    var r := Registered(names, add);
    RegisteredKnown(r, add);
  }

  /** Requesting names that are all registered leaves the order as it is. */
  lemma {:induction false} RegisteredKnown(names: seq<string>, add: seq<string>)
    requires forall n :: n in add ==> n in names
    ensures Registered(names, add) == names
    decreases |add|
  {
    if add != [] {
      RegisteredKnown(names, add[..|add| - 1]);
    }
  }

  /** Requesting one more name registers it after the earlier requests. */
  lemma RegisteredSnoc(names: seq<string>, add: seq<string>, n: string)
    ensures Registered(names, add + [n]) == Registered(Registered(names, add), [n])
  {
    assert (add + [n])[..|add|] == add;
    assert [n][..0] == [];
  }

  /**
   * The logger `name` once funnelled: the registered one without handlers
   * and propagating, at its own level, or a new one at NOTSET.
   */
  function FunnelledEntry(loggers: map<string, StdLogger>, name: string): (l: StdLogger)
    ensures Funnelled(l)
    ensures l.level == if name in loggers then loggers[name].level else NOTSET
  {
    if name in loggers then loggers[name].(handlers := [], propagate := true) else StdLogger([], true, NOTSET)
  }

  /** The loggers after funnelling each of `names` in turn. */
  function FunnelAll(loggers: map<string, StdLogger>, names: seq<string>): map<string, StdLogger>
    decreases |names|
  {
    if names == [] then loggers
    else
      var before := FunnelAll(loggers, names[..|names| - 1]);
      before[names[|names| - 1] := FunnelledEntry(before, names[|names| - 1])]
  }

  /**
   * Funnelling a list of names registers exactly those names, leaves each
   * of them without handlers and propagating, and leaves every other logger
   * as it was; levels are kept, and new loggers are NOTSET.
   */
  lemma {:induction false} FunnelAllFacts(loggers: map<string, StdLogger>, names: seq<string>)
    ensures forall n :: n in FunnelAll(loggers, names) <==> n in loggers || n in names
    ensures forall n :: n in names ==> Funnelled(FunnelAll(loggers, names)[n])
    ensures forall n :: n in loggers && n !in names ==> FunnelAll(loggers, names)[n] == loggers[n]
    ensures forall n :: n in FunnelAll(loggers, names) ==>
      FunnelAll(loggers, names)[n].level == if n in loggers then loggers[n].level else NOTSET
    decreases |names|
  {
    if names != [] {
      var init := names[..|names| - 1];
      FunnelAllFacts(loggers, init);
      assert names == init + [names[|names| - 1]];
    }
  }

  /** The root handler list `setup_logging` assigns. */
  function RootHandlers(needStreamHandler: bool): (hs: seq<Handler>)
    ensures |hs| == if needStreamHandler then 2 else 1
    ensures hs[0] == InterceptHandler
    ensures forall i :: 1 <= i < |hs| ==> hs[i] != InterceptHandler
  {
    if needStreamHandler then [InterceptHandler, StreamHandler(StreamFormat, StreamDateFormat)]
    else [InterceptHandler]
  }

  /** `logging.root` together with `logging.root.manager.loggerDict`. */
  class Registry
  {
    var rootHandlers: seq<Handler>
    var rootLevel: int
    var names: seq<string>
    var loggers: map<string, StdLogger>

    ghost predicate Valid()
      reads this
    {
      && Distinct(names)
      && (forall n :: n in loggers <==> n in names)
      && "" !in loggers
    }

    /** A fresh interpreter: root at WARNING with no handlers, no named loggers. */
    constructor()
      ensures Valid()
      ensures rootHandlers == [] && rootLevel == LogLevel.WARNING
      ensures names == [] && loggers == map[]
    {
      rootHandlers := [];
      rootLevel := LogLevel.WARNING;
      names := [];
      loggers := map[];
    }

    /** `logging.getLogger(name)` for a non-empty name: registers a new logger if none exists. */
    method GetLogger(name: string)
      requires Valid() && name != ""
      modifies this`names, this`loggers
      ensures Valid()
      ensures names == Registered(old(names), [name])
      ensures name in old(loggers) ==> loggers == old(loggers)
      ensures name !in old(loggers) ==> loggers == old(loggers)[name := StdLogger([], true, NOTSET)]
    {
      assert [name][..0] == [];
      if name !in loggers {
        names := names + [name];
        loggers := loggers[name := StdLogger([], true, NOTSET)];
      }
    }

    /** `logging_logger.handlers = []` and `logging_logger.propagate = True`. */
    method Funnel(name: string)
      requires name in loggers
      modifies this`loggers
      ensures loggers == old(loggers)[name := old(loggers)[name].(handlers := [], propagate := true)]
    {
      loggers := loggers[name := loggers[name].(handlers := [], propagate := true)];
    }

    /**
     * One pass of the loop body: `logging.getLogger(name)`, then its handlers
     * are cleared and it propagates. No other logger changes.
     */
    method FunnelOne(name: string)
      requires Valid() && name != ""
      modifies this`names, this`loggers
      ensures Valid()
      ensures names == Registered(old(names), [name])
      ensures loggers == old(loggers)[name := FunnelledEntry(old(loggers), name)]
    {
      GetLogger(name);
      Funnel(name);
    }

    /** The loop over the six fixed names: each is registered if new and funnelled. */
    method FunnelFixed(fixed: seq<string>)
      requires Valid() && "" !in fixed
      modifies this`names, this`loggers
      ensures Valid()
      ensures names == Registered(old(names), fixed)
      ensures loggers == FunnelAll(old(loggers), fixed)
    {
      var i := 0;
      while i < |fixed|
        invariant 0 <= i <= |fixed|
        invariant Valid()
        invariant names == Registered(old(names), fixed[..i])
        invariant loggers == FunnelAll(old(loggers), fixed[..i])
      {
        var name := fixed[i];
        FunnelOne(name);
        RegisteredSnoc(old(names), fixed[..i], name);
        assert fixed[..i + 1] == fixed[..i] + [name];
        assert fixed[..i + 1][..i] == fixed[..i];
        i := i + 1;
      }
      assert fixed[..i] == fixed;
    }

    /** The loop over `loggerDict`'s keys: every registered logger is funnelled. */
    method FunnelRegistered()
      requires Valid()
      modifies this`loggers
      ensures Valid()
      ensures loggers.Keys == old(loggers).Keys
      ensures forall n :: n in loggers ==> Funnelled(loggers[n])
      ensures forall n :: n in loggers ==> loggers[n].level == old(loggers)[n].level
    {
      var j := 0;
      while j < |names|
        invariant 0 <= j <= |names|
        invariant Valid()
        invariant loggers.Keys == old(loggers).Keys
        invariant forall k :: 0 <= k < j ==> Funnelled(loggers[names[k]])
        invariant forall n :: n in loggers ==> loggers[n].level == old(loggers)[n].level
      {
        Funnel(names[j]);
        j := j + 1;
      }
    }

    /**
     * `setup_logging(need_stream_handler)`, with `logLevel` the module's
     * LOG_LEVEL: the root handler list is assigned (never appended to), the
     * six fixed loggers are registered, and every registered logger loses its
     * handlers and propagates. Levels of named loggers are kept.
     */
    method SetupLogging(needStreamHandler: bool, logLevel: int)
      requires Valid()
      modifies this
      ensures Valid()
      ensures rootHandlers == RootHandlers(needStreamHandler)
      ensures rootLevel == logLevel
      ensures names == Registered(old(names), FixedLoggers)
      ensures forall n :: n in loggers ==> Funnelled(loggers[n])
      ensures forall n :: n in loggers ==>
        loggers[n].level == if n in old(loggers) then old(loggers)[n].level else NOTSET
    {
      rootHandlers := RootHandlers(needStreamHandler);
      rootLevel := logLevel;
      FunnelFixed(FixedLoggers);
      FunnelAllFacts(old(loggers), FixedLoggers);
      FunnelRegistered();
    }
  }

  /**
   * Running `setup_logging` twice leaves the state one run leaves: still a
   * single intercept handler on the root, no new loggers.
   */
  method SetupTwice(reg: Registry, needStreamHandler: bool, logLevel: int)
    requires reg.Valid()
    modifies reg
    ensures reg.Valid()
    ensures reg.rootHandlers == RootHandlers(needStreamHandler)
    ensures reg.names == Registered(old(reg.names), FixedLoggers)
  {
    reg.SetupLogging(needStreamHandler, logLevel);
    reg.SetupLogging(needStreamHandler, logLevel);
    RegisteredAgain(old(reg.names), FixedLoggers);
  }
}
