/**
 * The bridge between the progress bar and Python's `logging` module:
 * redirecting console handlers to the bar (`logging_redirect_tqdm`) and a
 * progress bar that reports through a logger (`logging_tqdm`).
 */
module Logging {
  import opened Outcomes
  import opened Hooks

  /** The handler classes that matter: `_TqdmLoggingHandler` is a subclass of `StreamHandler`. */
  datatype HandlerClass = StreamHandler | TqdmLoggingHandler | OtherHandler

  datatype Stream = Stdout | Stderr | OtherStream(name: string)

  /** A formatter, by identity. */
  type Formatter = string

  /** A handler's class, its `stream` (meaningful for stream handlers) and its `formatter` (None when unset). */
  datatype Handler = Handler(cls: HandlerClass, stream: Stream, formatter: Option<Formatter>)

  predicate IsStreamHandler(h: Handler) {
    h.cls.StreamHandler? || h.cls.TqdmLoggingHandler?
  }

  /** `_is_console_logging_handler`: a stream handler writing to stdout or stderr. */
  predicate IsConsole(h: Handler) {
    IsStreamHandler(h) && (h.stream.Stdout? || h.stream.Stderr?)
  }

  /** `_get_first_found_console_logging_handler`: the earliest console handler, if any. */
  function FirstConsole(hs: seq<Handler>): (r: Option<Handler>)
    ensures r.None? <==> forall i | 0 <= i < |hs| :: !IsConsole(hs[i])
    ensures r.Some? ==> exists i | 0 <= i < |hs| ::
      hs[i] == r.value && IsConsole(hs[i]) && forall j | 0 <= j < i :: !IsConsole(hs[j])
  {
    if hs == [] then None
    else if IsConsole(hs[0]) then Some(hs[0])
    else
      var r := FirstConsole(hs[1..]);
      assert forall j | 1 <= j < |hs| :: hs[j] == hs[1..][j - 1];
      r
  }

  /** The handlers of `hs` that are not console handlers, in their order. */
  function NonConsole(hs: seq<Handler>): (r: seq<Handler>)
    ensures |r| <= |hs|
    ensures forall h :: h in r <==> h in hs && !IsConsole(h)
  {
    if hs == [] then []
    else
      assert forall h :: h in hs <==> h == hs[0] || h in hs[1..];
      (if IsConsole(hs[0]) then [] else [hs[0]]) + NonConsole(hs[1..])
  }

  /** Filtering keeps order: it distributes over concatenation. */
  lemma {:induction false} NonConsoleAppend(a: seq<Handler>, b: seq<Handler>)
    ensures NonConsole(a + b) == NonConsole(a) + NonConsole(b)
  {
    if a == [] {
      assert a + b == b;
    } else {
      assert (a + b)[1..] == a[1..] + b;
      NonConsoleAppend(a[1..], b);
    }
  }

  /** Handlers with no console handler among them are all kept, in order. */
  lemma {:induction false} NonConsoleOfPlain(hs: seq<Handler>)
    requires forall i | 0 <= i < |hs| :: !IsConsole(hs[i])
    ensures NonConsole(hs) == hs
  {
    if hs != [] {
      NonConsoleOfPlain(hs[1..]);
    }
  }

  /**
   * The `_TqdmLoggingHandler` built for one logger: it takes the formatter
   * and stream of the first console handler, else keeps a `StreamHandler`'s
   * defaults (stderr, no formatter).
   */
  function NewTqdmHandler(orig: Option<Handler>): (h: Handler)
    ensures h.cls.TqdmLoggingHandler?
    ensures orig.None? ==> h.stream == Stderr && h.formatter.None?
    ensures orig.Some? ==> h.stream == orig.value.stream && h.formatter == orig.value.formatter
    ensures orig.None? || IsConsole(orig.value) ==> IsConsole(h)
  {
    match orig
    case None => Handler(TqdmLoggingHandler, Stderr, None)
    case Some(o) => Handler(TqdmLoggingHandler, o.stream, o.formatter)
  }

  /** A logger's handler list while redirected. */
  function Redirected(hs: seq<Handler>): seq<Handler> {
    NonConsole(hs) + [NewTqdmHandler(FirstConsole(hs))]
  }

  /**
   * While redirected, a logger keeps its non-console handlers in their
   * order, followed by exactly one new handler: a tqdm handler, the only
   * console handler left.
   */
  lemma RedirectedShape(hs: seq<Handler>)
    ensures var r := Redirected(hs);
      && r[..|r| - 1] == NonConsole(hs)
      && r[|r| - 1].cls.TqdmLoggingHandler?
      && IsConsole(r[|r| - 1])
      && forall i | 0 <= i < |r| - 1 :: !IsConsole(r[i])
  {
    var r := Redirected(hs);
    assert r[..|r| - 1] == NonConsole(hs);
    forall i | 0 <= i < |r| - 1 ensures !IsConsole(r[i]) {
      assert r[i] in NonConsole(hs);
    }
  }

  /** The new handler inherits the first console handler's formatter and stream, or keeps the defaults. */
  lemma RedirectedInherits(hs: seq<Handler>)
    ensures var t := Redirected(hs)[|Redirected(hs)| - 1];
      match FirstConsole(hs)
      case Some(o) => t.stream == o.stream && t.formatter == o.formatter
      case None => t.stream == Stderr && t.formatter.None?
  {
  }

  /** Redirecting an already redirected list changes nothing: the earlier tqdm handler takes its own place. */
  lemma RedirectedIdempotent(hs: seq<Handler>)
    ensures Redirected(Redirected(hs)) == Redirected(hs)
  {
    var plain := NonConsole(hs);
    var t := NewTqdmHandler(FirstConsole(hs));
    assert forall i | 0 <= i < |plain| :: !IsConsole(plain[i]) by {
      forall i | 0 <= i < |plain| ensures !IsConsole(plain[i]) {
        assert plain[i] in plain;
      }
    }
    NonConsoleAppend(plain, [t]);
    NonConsoleOfPlain(plain);
    assert NonConsole([t]) == [];
    FirstConsoleAfterPlain(plain, t);
  }

  lemma {:induction false} FirstConsoleAfterPlain(plain: seq<Handler>, t: Handler)
    requires forall i | 0 <= i < |plain| :: !IsConsole(plain[i])
    requires IsConsole(t)
    ensures FirstConsole(plain + [t]) == Some(t)
  {
    if plain != [] {
      assert (plain + [t])[1..] == plain[1..] + [t];
      FirstConsoleAfterPlain(plain[1..], t);
    }
  }

  /** A logger and its handler list. */
  class Logger {
    var handlers: seq<Handler>

    constructor (handlers: seq<Handler>)
      ensures this.handlers == handlers
    {
      this.handlers := handlers;
    }
  }

  /** `loggers=None` means the root logger alone. */
  function ResolveLoggers(requested: Option<seq<Logger>>, root: Logger): (r: seq<Logger>)
    ensures requested.None? ==> r == [root]
    ensures requested.Some? ==> r == requested.value
  {
    KeywordOr(requested, [root])
  }

  /**
   * One `with logging_redirect_tqdm(loggers):` block. `Enter` is the code
   * before `yield`, `Exit` the `finally` block, which runs whether the body
   * returns or raises.
   */
  class Redirection {
    const loggers: seq<Logger>
    /** `original_handlers_list`, captured before any logger is changed. */
    const saved: seq<seq<Handler>>

    /** One capture per logger; a logger named twice was captured twice with the same list. */
    ghost predicate Valid() {
      && |saved| == |loggers|
      && forall i, j | 0 <= i < |loggers| && 0 <= j < |loggers| && loggers[i] == loggers[j] :: saved[i] == saved[j]
    }

    constructor Enter(requested: Option<seq<Logger>>, root: Logger)
      modifies set l | l in ResolveLoggers(requested, root)
      ensures Valid()
      ensures loggers == ResolveLoggers(requested, root)
      ensures forall i | 0 <= i < |loggers| :: saved[i] == old(ResolveLoggers(requested, root)[i].handlers)
      ensures forall l | l in loggers :: l.handlers == Redirected(old(l.handlers))
    {
      var ls := ResolveLoggers(requested, root);
      var captured: seq<seq<Handler>> := [];
      var i := 0;
      while i < |ls|
        invariant 0 <= i <= |ls| && |captured| == i
        invariant forall k | 0 <= k < i :: captured[k] == ls[k].handlers
      {
        captured := captured + [ls[i].handlers];
        i := i + 1;
      }
      loggers := ls;
      saved := captured;
      new;
      i := 0;
      while i < |ls|
        invariant 0 <= i <= |ls|
        invariant forall l | l in ls[..i] :: l.handlers == Redirected(old(l.handlers))
        invariant forall l | l in ls && l !in ls[..i] :: l.handlers == old(l.handlers)
      {
        var logger := ls[i];
        var tqdmHandler := NewTqdmHandler(FirstConsole(logger.handlers));
        if logger in ls[..i] {
          RedirectedIdempotent(old(logger.handlers));
        }
        logger.handlers := NonConsole(logger.handlers) + [tqdmHandler];
        assert ls[..i + 1] == ls[..i] + [logger];
        i := i + 1;
      }
    }

    /** Every logger gets back the list captured before it was changed. */
    method Exit()
      requires Valid()
      modifies set l | l in loggers
      ensures forall i | 0 <= i < |loggers| :: loggers[i].handlers == saved[i]
    {
      var i := 0;
      while i < |loggers|
        invariant 0 <= i <= |loggers|
        invariant forall k | 0 <= k < i :: loggers[k].handlers == saved[k]
      {
        loggers[i].handlers := saved[i];
        i := i + 1;
      }
    }
  }

  /**
   * A whole `with` block whose body sets each redirected logger's handlers
   * to anything at all (`edits`): afterwards every logger has its original list.
   */
  method RedirectScope(requested: Option<seq<Logger>>, root: Logger, edits: seq<seq<Handler>>)
    requires |edits| == |ResolveLoggers(requested, root)|
    modifies set l | l in ResolveLoggers(requested, root)
    ensures forall l | l in ResolveLoggers(requested, root) :: l.handlers == old(l.handlers)
  {
    var scope := new Redirection.Enter(requested, root);
    var i := 0;
    // No invariant about the lists is needed: `Exit` overwrites every one of them.
    while i < |scope.loggers|
      invariant 0 <= i <= |scope.loggers|
    {
      scope.loggers[i].handlers := edits[i];
      i := i + 1;
    }
    scope.Exit();
  }

  // ---- logging_tqdm ----

  /** `__name__` of the bridge module, the name of its module-level `LOGGER`. */
  const ModuleLoggerName := "tqdm.contrib.logging"
  const DefaultLoggingMininterval := 1.0
  const DefaultLoggingBarFormat := "{desc}{percentage:3.0f}%{r_bar}"
  const DefaultDesc := "progress: "

  /** The keywords `logging_tqdm` reads; the outer None is an absent keyword, a logger is named. */
  datatype LoggingOptions = LoggingOptions(
    logger: Option<Option<string>>,
    mininterval: Option<real>,
    barFormat: Option<Option<string>>,
    desc: Option<Option<string>>)

  /** The logger kept in `_logger` and the settings passed on to the base meter. */
  datatype LoggingSettings = LoggingSettings(
    logger: Option<string>,
    mininterval: real,
    barFormat: Option<string>,
    desc: Option<string>)

  /**
   * `logging_tqdm.__init__`: two or more positional arguments raise
   * ValueError; otherwise each default applies only when its keyword is absent.
   */
  function LoggingInit(positional: nat, kw: LoggingOptions): (r: Result<LoggingSettings, PyError>)
    ensures r.Failure? <==> positional >= 2
    ensures r.Failure? ==> r.error == ValueError
    ensures r.Success? ==> r.value.logger == if kw.logger.Some? then kw.logger.value else None
    ensures r.Success? ==> r.value.mininterval == if kw.mininterval.Some? then kw.mininterval.value else DefaultLoggingMininterval
    ensures r.Success? ==> r.value.barFormat == if kw.barFormat.Some? then kw.barFormat.value else Some(DefaultLoggingBarFormat)
    ensures r.Success? ==> r.value.desc == if kw.desc.Some? then kw.desc.value else Some(DefaultDesc)
  {
    if positional >= 2 then Failure(ValueError)
    else Success(LoggingSettings(
      KeywordOr(kw.logger, None),
      KeywordOr(kw.mininterval, DefaultLoggingMininterval),
      KeywordOr(kw.barFormat, Some(DefaultLoggingBarFormat)),
      KeywordOr(kw.desc, Some(DefaultDesc))))
  }

  /** `_get_logger`: the supplied logger, else the module's `LOGGER`. */
  function GetLogger(logger: Option<string>): (r: string)
    ensures logger.Some? ==> r == logger.value
    ensures logger.None? ==> r == ModuleLoggerName
  {
    if logger.Some? then logger.value else ModuleLoggerName
  }

  /** What one `display` call leaves in `_last_log_n` and the message it logs, if any. */
  datatype Shown = Shown(lastLogN: int, message: Option<string>)

  /**
   * `logging_tqdm.display(msg)` at progress `n`: skip before any progress
   * and at an already logged `n`; else mark `n` as logged, then log the
   * message (`rendered` stands for `str(self)` when `msg` is None) unless it is empty.
   */
  function DisplayStep(n: int, lastLogN: int, msg: Option<string>, rendered: string): Shown {
    if n == 0 || n == lastLogN then Shown(lastLogN, None)
    else
      var m := if msg.Some? then msg.value else rendered;
      Shown(n, if m == [] then None else Some(m))
  }

  /** Nothing is logged before any progress, nor twice for the same `n`. */
  lemma DisplaySkips(n: int, lastLogN: int, msg: Option<string>, rendered: string)
    requires n == 0 || n == lastLogN
    ensures DisplayStep(n, lastLogN, msg, rendered) == Shown(lastLogN, None)
  {
  }

  /** Otherwise `n` is marked as logged first, so an empty message still uses up `n`. */
  lemma DisplayMarksBeforeLogging(n: int, lastLogN: int, msg: Option<string>, rendered: string)
    requires n != 0 && n != lastLogN
    ensures DisplayStep(n, lastLogN, msg, rendered).lastLogN == n
    ensures DisplayStep(n, lastLogN, msg, rendered).message.None? <==>
      (if msg.Some? then msg.value else rendered) == []
    ensures DisplayStep(n, lastLogN, msg, rendered).message.Some? ==>
      DisplayStep(n, lastLogN, msg, rendered).message.value == if msg.Some? then msg.value else rendered
  {
  }

  /** A display call: its `msg` argument and what `str(self)` would give. */
  datatype DisplayCall = DisplayCall(msg: Option<string>, rendered: string)

  /** The messages logged by a run of displays at the same progress `n`. */
  function DisplayRun(n: int, lastLogN: int, calls: seq<DisplayCall>): seq<string>
    decreases |calls|
  {
    if calls == [] then []
    else
      var s := DisplayStep(n, lastLogN, calls[0].msg, calls[0].rendered);
      (if s.message.Some? then [s.message.value] else []) + DisplayRun(n, s.lastLogN, calls[1..])
  }

  /** However often `display` is called at the same `n`, at most one message is logged. */
  lemma {:induction false} RepeatedDisplayLogsOnce(n: int, lastLogN: int, calls: seq<DisplayCall>)
    ensures |DisplayRun(n, lastLogN, calls)| <= 1
    ensures n == lastLogN ==> DisplayRun(n, lastLogN, calls) == []
    decreases |calls|
  {
    if calls != [] {
      var s := DisplayStep(n, lastLogN, calls[0].msg, calls[0].rendered);
      RepeatedDisplayLogsOnce(n, s.lastLogN, calls[1..]);
      if n != 0 && n != lastLogN {
        RepeatedDisplayLogsOnce(n, n, calls[1..]);
      }
    }
  }

  /** `logging_tqdm`: `n` belongs to the base meter; `logged` records (logger, message) info records. */
  class LoggingBar {
    const logger: Option<string>
    var n: int
    var lastLogN: int
    ghost var logged: seq<(string, string)>

    /** A successfully constructed bar, at the base meter's initial count `initial`. */
    constructor (settings: LoggingSettings, initial: int)
      ensures logger == settings.logger && n == initial && lastLogN == -1 && logged == []
    {
      logger := settings.logger;
      n := initial;
      lastLogN := -1;
      logged := [];
    }

    method Display(msg: Option<string>, rendered: string)
      modifies this
      ensures n == old(n)
      ensures lastLogN == DisplayStep(old(n), old(lastLogN), msg, rendered).lastLogN
      ensures logged == old(logged) + match DisplayStep(old(n), old(lastLogN), msg, rendered).message
        case Some(m) => [(GetLogger(logger), m)]
        case None => []
    {
      if n == 0 || n == lastLogN {
        return;
      }
      lastLogN := n;
      var m := if msg.Some? then msg.value else rendered;
      if m == [] {
        return;
      }
      logged := logged + [(GetLogger(logger), m)];
    }
  }
}
