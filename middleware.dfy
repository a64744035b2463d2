/**
 * Request correlation of app/core/middleware.py: the `request_id` context
 * variable (one execution context), the `patch_log` record patcher and the
 * middleware's `dispatch`. The id `uuid4` would make is a parameter, and so
 * is what the downstream application (`call_next`) does.
 */
module Middleware {
  import opened Wrappers
  import opened Loguru
  import LogLevel

  const RequestIdKey: string := "request_id"
  const RequestIdHeader: string := "X-Request-ID"
  const ReceivedMessage: string := "request received (in middleware)"
  const FinishedMessage: string := "request finished (in middleware)"

  /** What `ContextVar.set` hands back: the value it replaced. */
  datatype Token = Token(previous: Option<string>)

  /** `_request_id_ctx_var` in one execution context; `None` is the default. */
  class RequestIdVar
  {
    var value: Option<string>

    constructor()
      ensures value == None
    {
      value := None;
    }

    /** `set(v)`: binds `v` and returns a token remembering the old binding. */
    method Set(v: string) returns (token: Token)
      modifies this
      ensures value == Some(v) && token == Token(old(value))
    {
      token := Token(value);
      value := Some(v);
    }

    /** `reset(token)`: restores the binding the token remembers. */
    method Reset(token: Token)
      modifies this
      ensures value == token.previous
    {
      value := token.previous;
    }
  }

  /** `get_request_id()`: the current binding, `None` when nothing is bound. */
  function GetRequestId(ctx: RequestIdVar): (id: Option<string>)
    reads ctx
    ensures id.Some? <==> ctx.value.Some?
    ensures id.Some? ==> id.value == ctx.value.value
  {
    ctx.value
  }

  /** A set followed by the reset of its token leaves the binding as it was. */
  method SetThenReset(ctx: RequestIdVar, v: string)
    modifies ctx
    ensures ctx.value == old(ctx.value)
  {
    var token := ctx.Set(v);
    ctx.Reset(token);
  }

  /** A loguru record as the patcher sees it: its message and its `extra` dict. */
  class LogRecord
  {
    var message: string
    var extra: map<string, Option<string>>

    constructor(message: string, extra: map<string, Option<string>>)
      ensures this.message == message && this.extra == extra
    {
      this.message := message;
      this.extra := extra;
    }
  }

  /**
   * An `extra` dict after the patcher ran with `binding` current: the
   * `request_id` key is always present and holds the binding (`None` when
   * unbound); every other key keeps its value.
   */
  function Patched(extra: map<string, Option<string>>, binding: Option<string>): (r: map<string, Option<string>>)
    ensures RequestIdKey in r && r[RequestIdKey] == binding
    ensures forall k :: k != RequestIdKey ==> (k in r <==> k in extra)
    ensures forall k :: k != RequestIdKey && k in extra ==> r[k] == extra[k]
  {
    extra[RequestIdKey := binding]
  }

  /** `patch_log(record)`: writes the current binding into the record's `extra`. */
  method PatchLog(record: LogRecord, ctx: RequestIdVar)
    modifies record`extra
    ensures record.extra == Patched(old(record.extra), ctx.value)
  {
    record.extra := Patched(record.extra, GetRequestId(ctx));
  }

  /** A record the logger builds: the message and the (patched) `extra`. */
  datatype Entry = Entry(message: string, extra: map<string, Option<string>>)

  /**
   * The line a log call produces under the core's patcher: `patch_log`
   * stamps the binding into `extra`; with no patcher the fields go through
   * as they are.
   */
  function Line(patcher: Option<Patcher>, message: string, fields: map<string, Option<string>>,
                binding: Option<string>): (e: Entry)
    ensures e.message == message
    ensures patcher == Some(PatchRequestId) ==> e.extra == Patched(fields, binding)
    ensures patcher != Some(PatchRequestId) ==> e.extra == fields
  {
    Entry(message, if patcher == Some(PatchRequestId) then Patched(fields, binding) else fields)
  }

  /** With `patch_log` installed, every line carries the bound request id. */
  lemma PatchedLineCarriesId(message: string, fields: map<string, Option<string>>, id: string)
    ensures var e := Line(Some(PatchRequestId), message, fields, Some(id));
      RequestIdKey in e.extra && e.extra[RequestIdKey] == Some(id)
  {
  }

  /** Without a patcher, a line carries no request id its fields did not have. */
  lemma UnpatchedLineLacksId(message: string, fields: map<string, Option<string>>, binding: Option<string>)
    requires RequestIdKey !in fields
    ensures RequestIdKey !in Line(None, message, fields, binding).extra
  {
  }

  /** One `logger.info(message, **fields)` call the application makes. */
  datatype AppLine = AppLine(message: string, fields: map<string, Option<string>>)

  /** The lines the application's calls produce while `binding` is current. */
  function AppLog(patcher: Option<Patcher>, lines: seq<AppLine>, binding: Option<string>): (r: seq<Entry>)
    ensures |r| == |lines|
    ensures forall i :: 0 <= i < |lines| ==> r[i] == Line(patcher, lines[i].message, lines[i].fields, binding)
  {
    seq(|lines|, i requires 0 <= i < |lines| => Line(patcher, lines[i].message, lines[i].fields, binding))
  }

  /** The lines the logger has written so far. */
  class Journal
  {
    var entries: seq<Entry>

    constructor()
      ensures entries == []
    {
      entries := [];
    }

    /**
     * `logger.info(message, **fields)`: loguru builds a record and runs the
     * core's patcher on it, which is `patch_log` once the application has
     * installed it.
     */
    method Info(ctx: RequestIdVar, logger: Logger, message: string, fields: map<string, Option<string>>)
      modifies this
      ensures entries == old(entries) + [Line(logger.core.patcher, message, fields, ctx.value)]
    {
      var record := new LogRecord(message, fields);
      if logger.core.patcher == Some(PatchRequestId) {
        PatchLog(record, ctx);
      }
      entries := entries + [Entry(record.message, record.extra)];
    }

    /** The application's log calls, made one after another under the current binding. */
    method InfoAll(ctx: RequestIdVar, logger: Logger, lines: seq<AppLine>)
      modifies this
      ensures entries == old(entries) + AppLog(logger.core.patcher, lines, ctx.value)
    {
      var i := 0;
      while i < |lines|
        invariant 0 <= i <= |lines|
        invariant entries == old(entries) + AppLog(logger.core.patcher, lines[..i], ctx.value)
      {
        Info(ctx, logger, lines[i].message, lines[i].fields);
        assert AppLog(logger.core.patcher, lines[..i + 1], ctx.value)
          == AppLog(logger.core.patcher, lines[..i], ctx.value)
            + [Line(logger.core.patcher, lines[i].message, lines[i].fields, ctx.value)];
        i := i + 1;
      }
      assert lines[..i] == lines;
    }
  }

  /** The request fields the first log line carries. */
  datatype Request = Request(verb: string, path: string, client: Option<string>, userAgent: Option<string>)

  /**
   * The keyword arguments of the first log line: the method, the path,
   * the client host (`None` without a client) and the User-Agent header.
   */
  function RequestFields(r: Request): (f: map<string, Option<string>>)
    ensures f.Keys == {"method", "path", "client", "ua"}
    ensures RequestIdKey !in f
    ensures f["method"] == Some(r.verb) && f["path"] == Some(r.path)
    ensures f["client"] == r.client && f["ua"] == r.userAgent
  {
    map["method" := Some(r.verb), "path" := Some(r.path), "client" := r.client, "ua" := r.userAgent]
  }

  /** Header names as Starlette stores them: lower-cased. */
  predicate NamesLowered(headers: map<string, string>)
  {
    forall k :: k in headers ==> LogLevel.Lower(k) == k
  }

  /**
   * `headers[name] = value`: the name is lower-cased, so the new value
   * replaces the header under any spelling of that name; every other
   * header is kept.
   */
  function SetHeader(headers: map<string, string>, name: string, value: string): (r: map<string, string>)
    ensures LogLevel.Lower(name) in r && r[LogLevel.Lower(name)] == value
    ensures forall k :: k != LogLevel.Lower(name) ==> (k in r <==> k in headers)
    ensures forall k :: k != LogLevel.Lower(name) && k in headers ==> r[k] == headers[k]
    ensures NamesLowered(headers) ==> NamesLowered(r)
  {
    LogLevel.LowerIdempotent(name);
    headers[LogLevel.Lower(name) := value]
  }

  /**
   * After setting `X-Request-ID` on lower-cased headers, the only header
   * whose name is any spelling of it holds the new value.
   */
  lemma HeaderSetUnderAnySpelling(headers: map<string, string>, name: string, value: string)
    requires NamesLowered(headers)
    ensures var r := SetHeader(headers, name, value);
      forall k :: k in r && LogLevel.Lower(k) == LogLevel.Lower(name) ==> k == LogLevel.Lower(name) && r[k] == value
  {
  }

  /** An outgoing response; its headers, keyed by lower-cased name, are edited in place. */
  class Response
  {
    var headers: map<string, string>

    constructor(headers: map<string, string>)
      ensures this.headers == headers
    {
      this.headers := headers;
    }
  }

  /**
   * What `await call_next(request)` does: the application logs its lines
   * while it handles the request, then returns a response or raises.
   */
  datatype Downstream =
    | Responds(appLines: seq<AppLine>, response: Response)
    | Raises(appLines: seq<AppLine>, error: string)

  /** What `dispatch` does: returns a response or lets the exception through. */
  datatype Outcome = Returned(response: Response) | Raised(error: string)

  /**
   * Everything one request writes: the received line, the application's
   * lines, and the finished line when the application returned. All of
   * them are built while the fresh id is bound.
   */
  function RequestLog(patcher: Option<Patcher>, request: Request, freshId: string, lines: seq<AppLine>,
                      finished: bool): seq<Entry>
  {
    [Line(patcher, ReceivedMessage, RequestFields(request), Some(freshId))]
      + AppLog(patcher, lines, Some(freshId))
      + (if finished then [Line(patcher, FinishedMessage, map[], Some(freshId))] else [])
  }

  /**
   * A request's lines come in order: the received line first, then the
   * application's lines, then, when the application returned, the
   * finished line last.
   */
  lemma RequestLogShape(patcher: Option<Patcher>, request: Request, freshId: string, lines: seq<AppLine>,
                        finished: bool)
    ensures var r := RequestLog(patcher, request, freshId, lines, finished);
      && |r| == |lines| + (if finished then 2 else 1)
      && r[0] == Line(patcher, ReceivedMessage, RequestFields(request), Some(freshId))
      && r[1..1 + |lines|] == AppLog(patcher, lines, Some(freshId))
      && (finished ==> r[|r| - 1] == Line(patcher, FinishedMessage, map[], Some(freshId)))
  {
    var r := RequestLog(patcher, request, freshId, lines, finished);
    assert r[1..1 + |lines|] == AppLog(patcher, lines, Some(freshId));
  }

  /**
   * With `patch_log` installed, every line of a request, the application's
   * own included, carries the request's fresh id.
   */
  lemma {:induction false} RequestLinesCarryId(request: Request, freshId: string, lines: seq<AppLine>, finished: bool)
    ensures var r := RequestLog(Some(PatchRequestId), request, freshId, lines, finished);
      forall k :: 0 <= k < |r| ==> RequestIdKey in r[k].extra && r[k].extra[RequestIdKey] == Some(freshId)
  {
    var r := RequestLog(Some(PatchRequestId), request, freshId, lines, finished);
    RequestLogShape(Some(PatchRequestId), request, freshId, lines, finished);
    forall k | 0 <= k < |r|
      ensures RequestIdKey in r[k].extra && r[k].extra[RequestIdKey] == Some(freshId)
    {
      if 1 <= k < 1 + |lines| {
        assert r[k] == r[1..1 + |lines|][k - 1];
        PatchedLineCarriesId(lines[k - 1].message, lines[k - 1].fields, freshId);
      } else if k == 0 {
        PatchedLineCarriesId(ReceivedMessage, RequestFields(request), freshId);
      } else {
        PatchedLineCarriesId(FinishedMessage, map[], freshId);
      }
    }
  }

  /**
   * `dispatch` up to the return of `call_next`: binds the fresh id, logs the
   * received line, and runs the application's log calls under that binding.
   */
  method BeginRequest(ctx: RequestIdVar, journal: Journal, logger: Logger, request: Request, freshId: string,
                      lines: seq<AppLine>)
    returns (token: Token)
    modifies ctx, journal
    ensures token == Token(old(ctx.value)) && ctx.value == Some(freshId)
    ensures journal.entries == old(journal.entries) + RequestLog(logger.core.patcher, request, freshId, lines, false)
  {
    token := ctx.Set(freshId);
    journal.Info(ctx, logger, ReceivedMessage, RequestFields(request));
    journal.InfoAll(ctx, logger, lines);
    assert RequestLog(logger.core.patcher, request, freshId, lines, false)
      == [Line(logger.core.patcher, ReceivedMessage, RequestFields(request), Some(freshId))]
        + AppLog(logger.core.patcher, lines, Some(freshId));
  }

  /**
   * `dispatch` after `call_next` returned: logs the finished line, stamps
   * the response header with the bound id and restores the binding the
   * token remembers.
   */
  method FinishRequest(ctx: RequestIdVar, journal: Journal, logger: Logger, response: Response, token: Token)
    requires ctx.value.Some?
    modifies ctx, journal, response
    ensures ctx.value == token.previous
    ensures journal.entries == old(journal.entries) + [Line(logger.core.patcher, FinishedMessage, map[], old(ctx.value))]
    ensures response.headers == SetHeader(old(response.headers), RequestIdHeader, old(ctx.value).value)
  {
    journal.Info(ctx, logger, FinishedMessage, map[]);
    var id := GetRequestId(ctx);
    response.headers := SetHeader(response.headers, RequestIdHeader, id.value);
    ctx.Reset(token);
  }

  /**
   * `RequestContextLogMiddleware.dispatch`: binds `freshId`, logs the
   * request under it, runs the application, whose log calls see the same
   * binding, then logs completion, stamps the response header with the
   * bound id and restores the previous binding. When the application
   * raises, neither the finished line, the header nor the reset happens.
   * Log lines are patched by whatever patcher `logger`'s core holds.
   */
  method Dispatch(ctx: RequestIdVar, journal: Journal, logger: Logger, request: Request, freshId: string,
                  downstream: Downstream)
    returns (outcome: Outcome)
    modifies ctx, journal
    modifies if downstream.Responds? then {downstream.response} else {}
    ensures journal.entries == old(journal.entries)
      + RequestLog(logger.core.patcher, request, freshId, downstream.appLines, downstream.Responds?)
    ensures downstream.Raises? ==>
      && outcome == Raised(downstream.error)
      && ctx.value == Some(freshId)
    ensures downstream.Responds? ==>
      && outcome == Returned(downstream.response)
      && ctx.value == old(ctx.value)
      && downstream.response.headers == SetHeader(old(downstream.response.headers), RequestIdHeader, freshId)
  {
    var token := BeginRequest(ctx, journal, logger, request, freshId, downstream.appLines);
    match downstream
    case Raises(_, e) =>
      return Raised(e);
    case Responds(lines, response) =>
      ghost var patcher := logger.core.patcher;
      FinishRequest(ctx, journal, logger, response, token);
      assert RequestLog(patcher, request, freshId, lines, true)
        == RequestLog(patcher, request, freshId, lines, false) + [Line(patcher, FinishedMessage, map[], Some(freshId))];
      return Returned(response);
  }
}
