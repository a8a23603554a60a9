# tqdm contrib: chat-bot progress sinks and the logging bridge

This project models three modules of tqdm's `contrib` package in Dafny and proves properties of the model.

- `tqdm/contrib/telegram.py`: the Telegram sink `TelegramIO` and the progress bar `tqdm_telegram`. The bar mirrors its meter into one Telegram message.
- `tqdm/contrib/discord.py`: the Discord sink `DiscordIO` and the progress bar `tqdm_discord`.
- `tqdm/contrib/logging.py`: `logging_redirect_tqdm` and `logging_tqdm`.
  - `logging_redirect_tqdm` temporarily replaces each logger's console handlers with one tqdm handler.
  - `logging_tqdm` is a progress bar that reports through a logger instead of the console.

## Files

- `outcomes.dfy`: `Option`, `Result`, whether a call raised, and the Python exceptions involved.
- `text.dfy`: Python's `str.isspace` character set, `strip`, `str.replace(c, '')`, general `str.replace` and substring search. Also the text normalisation both sinks apply before sending.
- `remote.dfy`: the requests a sink issues (create, edit, delete). Also the `Step` record of one sink call: its new state, the requests it sent and whether it echoed an error.
- `hooks.dfy`: the shared bar hooks.
  - The `bar_format` rewrite.
  - The `leave`/`pos` policy of `close`.
  - Keyword and environment look-ups.
- `telegram.dfy`, `discord.dfy`: each sink is specified twice.
  - First as pure step functions on a `SinkState` value.
  - Then as a class with the same fields, whose methods are proved against those step functions. The class also keeps a ghost log of requests and echoed errors.
  - Each file ends with the bar class that drives its sink.
- `logging.dfy`: handler lists and the redirection scope, as a `Redirection` class over mutable `Logger` objects. Also `logging_tqdm`'s constructor keywords and its `display` throttle.

Inputs from outside the program become parameters:

- HTTP replies: `Reply`.
- The environment: `env: map<string, string>`.
- The base meter's `format_meter`: a `render` function.
- The base meter's `n`, `leave` and `pos`: plain values.

The background worker's `submit` is modelled as appending to the request log.

Some behaviours of the code are easy to miss; the model follows the code:

- **Discord `delete()` without an id.** It is not a no-op. It re-tries creating the message, then submits a DELETE whose URL holds whatever the lookup gave, `None` included (`DeleteAlwaysSubmits`).
- **Discord message id.** Every access to `message_id` while it is unset posts a new creation request (`FailedCreationRetried`).
- **Telegram reply without an id.** A creation reply that lacks `result.message_id` is not swallowed. The `KeyError` escapes the constructor, and so escapes `tqdm_telegram(...)` too (`TelegramIO.Open`, `TelegramBar.Open`).
- **Telegram `write` without an id.** The new text is still recorded, even though no edit can be sent. A later identical write is then dropped as a duplicate (`TextRecordedBeforeSubmit`).

## Model

| member | source | states |
|---|---|---|
| Text.IsSpace | tqdm/contrib/telegram.py:54 | definition of Python's `str.isspace` character set, which decides what `strip()` drops |
| Text.StripLeft | tqdm/contrib/telegram.py:54 | the result of `lstrip` is empty or starts with a non-whitespace character, and is no longer than the input |
| Text.StripLeftShape | tqdm/contrib/telegram.py:54 | what `lstrip` keeps is a suffix of the input, and everything it drops is whitespace |
| Text.StripRight | tqdm/contrib/telegram.py:54 | the result of `rstrip` is empty or ends with a non-whitespace character |
| Text.StripRightShape | tqdm/contrib/telegram.py:54 | what `rstrip` keeps is a prefix of the input, and everything it drops is whitespace |
| Text.Strip | tqdm/contrib/telegram.py:54 | definition of `s.strip()` as `rstrip` after `lstrip`; its properties are the rows around it |
| Text.StripTrims | tqdm/contrib/telegram.py:54 | `strip()` leaves no whitespace at either end |
| Text.StripKeepsCharacters | tqdm/contrib/telegram.py:54 | `strip()` introduces no character that was not in its input |
| Text.StripTrimmed | tqdm/contrib/telegram.py:54 | stripping a text with no whitespace at its ends returns it unchanged |
| Text.Remove | tqdm/contrib/telegram.py:54 | after `replace('\r', '')` no carriage return is left |
| Text.RemoveKeepsOthers | tqdm/contrib/telegram.py:54 | removing `\r` keeps every other character exactly as often as it occurred (multiset equality) |
| Text.RemoveAppend | tqdm/contrib/telegram.py:54 | removing `\r` distributes over concatenation, so the other characters keep their order |
| Text.RemoveAbsent | tqdm/contrib/telegram.py:54 | removing a character that does not occur returns the text unchanged |
| Text.Normalise | tqdm/contrib/telegram.py:52-54 | an empty update is sent as "..."; the text sent never contains a carriage return |
| Text.NormaliseTrimmed | tqdm/contrib/discord.py:52-54 | a non-empty update is sent with its carriage returns removed and no whitespace at either end |
| Text.NormaliseIdempotent | tqdm/contrib/discord.py:52-55 | a non-empty normalised text normalises to itself, so writing it again is caught by the duplicate check; the empty text is not, since it normalises to "..." |
| Text.BlankNormalisesToEmpty | tqdm/contrib/telegram.py:52-54 | a whitespace-only update is truthy, so it is not replaced by "...", yet it is sent as the empty text |
| Text.ReplaceAll | tqdm/contrib/telegram.py:123-124 | definition of `str.replace(pat, rep)`: every non-overlapping occurrence, scanned from the left |
| Text.ReplaceAtFirst | tqdm/contrib/telegram.py:123-124 | for a pattern that cannot overlap itself, the first occurrence is the one replaced, the text before it is kept and scanning resumes after it |
| Text.NoStraddle | tqdm/contrib/telegram.py:123-124 | joining two pattern-free texts creates no occurrence when the right one starts with a character that occurs in the pattern only at its start |
| Text.ReplaceAbsent | tqdm/contrib/telegram.py:122-124 | `str.replace` with a pattern that does not occur returns the text unchanged |
| Text.PrefixPreserved | tqdm/contrib/telegram.py:122-124 | a prefix of the replaced text that contains no first character of the replacement was already a prefix of the input |
| Text.NoOccurrenceAfterRep | tqdm/contrib/telegram.py:122-124 | a replacement that cannot begin a pattern occurrence, put in front of a text free of the pattern, creates none |
| Text.ReplaceEliminates | tqdm/contrib/telegram.py:122-124 | `str.replace(pat, rep)` leaves no occurrence of `pat` when `rep` cannot recreate one |
| Text.ReplacePreservesAbsence | tqdm/contrib/telegram.py:122-124 | `str.replace` creates no occurrence of an absent pattern that can neither start inside nor run into the replacement |
| Remote.Quoted | tqdm/contrib/discord.py:37 | definition of the inline-code wrapping of the text both sinks send (also discord.py:66, telegram.py:41 and 61) |
| Remote.Edits | tqdm/contrib/discord.py:67-72 | counts the PATCH requests a log holds, the measure `WritePatchesMessage` and `RepeatedWriteEditsOnce` are stated in |
| Remote.EditsAppend | tqdm/contrib/discord.py:67-72 | edit counts add up over concatenated request logs |
| Hooks.RewriteBarFormat | tqdm/contrib/telegram.py:122-126 | a missing or empty `bar_format` becomes `{l_bar}{bar:10u}{r_bar}` |
| Hooks.RewritesBarTag | tqdm/contrib/telegram.py:122-124 | in a format `a<bar/>b`, where `a` and `b` hold no placeholder but may hold any other field, the tag becomes `{bar:10u}` and `a`, `b` are kept |
| Hooks.RewritesBarField | tqdm/contrib/discord.py:128-133 | in a format `a{bar}b`, where `a` and `b` hold no placeholder but may hold any other field, the field becomes `{bar:10u}` and `a`, `b` are kept |
| Hooks.RewritesStockFormat | tqdm/contrib/telegram.py:122-126 | the format `{l_bar}{bar}{r_bar}` is rewritten to exactly the default format |
| Hooks.FixedWidthBarKept | tqdm/contrib/telegram.py:123-124 | the second replacement does not touch the `{bar:10u}` the first one produced |
| Hooks.RewriteRemovesPlaceholders | tqdm/contrib/discord.py:128-135 | after the rewrite, neither `<bar/>` nor `{bar}` occurs in the format, for every input format |
| Hooks.RewriteKeepsPlainFormat | tqdm/contrib/telegram.py:122-124 | a non-empty format without placeholders is used unchanged |
| Hooks.DefaultHasNoPlaceholder | tqdm/contrib/telegram.py:126 | the default format holds neither `<bar/>` nor `{bar}` |
| Hooks.LeftOnScreen | tqdm/contrib/telegram.py:138 | definition of `self.leave or (self.leave is None and self.pos == 0)` (also discord.py:147) |
| Hooks.CloseDeletes | tqdm/contrib/telegram.py:134-139 | `close` deletes the remote message exactly when the bar is enabled and not left on screen (`leave` true, or unset on the bar at position 0) |
| Hooks.Getenv | tqdm/contrib/telegram.py:114-115 | `getenv` gives the variable's value when it is set and None otherwise |
| Hooks.KeywordOr | tqdm/contrib/telegram.py:114-116 | `kwargs.pop(key, default)` gives an explicit keyword, even None, over the default |
| Telegram.OpenStep | tqdm/contrib/telegram.py:31-48 | definition of the constructor on values: one creation post of the class name; a raised post leaves the id unset and echoes; a reply without an id raises KeyError |
| Telegram.WriteStep | tqdm/contrib/telegram.py:50-66 | definition of `write` on values: normalise, drop a duplicate, record the text, then one edit with an id or an echoed error without |
| Telegram.DeleteStep | tqdm/contrib/telegram.py:68-77 | definition of `delete` on values: one deletion with an id, an echoed error without |
| Telegram.DuplicateWriteSkipped | tqdm/contrib/telegram.py:55-56 | a write whose normalised text equals the last text changes nothing, sends nothing and echoes nothing |
| Telegram.TextRecordedBeforeSubmit | tqdm/contrib/telegram.py:57-64 | otherwise the text is recorded; one edit of the message is sent when the id exists; otherwise the error is echoed and nothing is sent |
| Telegram.RepeatedWriteSentOnce | tqdm/contrib/telegram.py:52-57 | of two identical writes in a row, the second sends nothing and both together send at most one request |
| Telegram.FirstWriteOfClassNameDropped | tqdm/contrib/telegram.py:37-56 | right after construction, writing "TelegramIO" sends nothing |
| Telegram.OpenOutcomes | tqdm/contrib/telegram.py:36-48 | construction fails exactly on a reply without an id; otherwise the text is the class name, the id is unset exactly when the post raised, and only that case echoes |
| Telegram.NoIdEchoes | tqdm/contrib/telegram.py:58-75 | without an id, a non-duplicate write and every delete send nothing and echo the error |
| Telegram.NoIdNoRequests | tqdm/contrib/telegram.py:38-75 | without an id, no sequence of writes and deletes sends any request, and the id stays unset |
| Telegram.RequestsTargetMessage | tqdm/contrib/telegram.py:57-77 | with an id, every request of any sequence of calls edits or deletes that message, and the id is kept |
| Telegram.TelegramIO.Open | tqdm/contrib/telegram.py:31-48 | the constructor fails exactly as the creation reply says; otherwise the new sink holds the credentials, the creation request and the state given by the reply |
| Telegram.TelegramIO.Write | tqdm/contrib/telegram.py:50-66 | the sink's fields and logs change as `WriteStep` says; a future is returned exactly when a request was submitted |
| Telegram.TelegramIO.Delete | tqdm/contrib/telegram.py:68-77 | the sink's fields and logs change as `DeleteStep` says; a future is returned exactly when an id exists |
| Telegram.SinkArguments | tqdm/contrib/telegram.py:111-115 | a sink is built only when not disabled; each credential is the explicit keyword, else the environment variable |
| Telegram.Mininterval | tqdm/contrib/telegram.py:116 | `mininterval` is the explicit keyword, else 1 second |
| Telegram.TelegramBar.Open | tqdm/contrib/telegram.py:96-117 | a disabled bar has no sink; an enabled one fails exactly when its sink's constructor raises, and otherwise holds a fresh sink built with the resolved credentials |
| Telegram.TelegramBar.Display | tqdm/contrib/telegram.py:119-127 | the sink receives the meter rendered with the rewritten `bar_format`; a bar without a sink raises |
| Telegram.TelegramBar.Clear | tqdm/contrib/telegram.py:129-132 | an enabled bar writes the empty text to its sink |
| Telegram.TelegramBar.Close | tqdm/contrib/telegram.py:134-139 | the sink performs one delete exactly when `CloseDeletes` holds; otherwise the sink is unchanged |
| Discord.LookupStep | tqdm/contrib/discord.py:28-48 | definition of the `message_id` property on values: the memoised id, else one creation post of the current text, memoising an id the reply carries |
| Discord.OpenStep | tqdm/contrib/discord.py:20-26 | definition of the constructor on values: text set to the class name, then one `message_id` access |
| Discord.WriteStep | tqdm/contrib/discord.py:50-76 | definition of `write` on values: normalise, drop a duplicate, look the id up, return without one, else record the text and send one edit |
| Discord.DeleteStep | tqdm/contrib/discord.py:78-93 | definition of `delete` on values: look the id up, then send one deletion of whatever it gave |
| Discord.MemoisedIdReturned | tqdm/contrib/discord.py:28-31 | once memoised, `message_id` returns the id and sends nothing |
| Discord.LookupCreates | tqdm/contrib/discord.py:32-48 | while unset, an access posts one creation with the current text; it memoises and returns an id exactly when the reply has one, and echoes exactly when the post raised |
| Discord.FailedCreationRetried | tqdm/contrib/discord.py:30-48 | a failed creation leaves the state as it was, so the next access posts a new creation |
| Discord.DuplicateWriteSkipped | tqdm/contrib/discord.py:52-56 | a write whose normalised text equals the last text changes nothing and sends nothing |
| Discord.WriteWithoutIdKeepsText | tqdm/contrib/discord.py:57-59 | a write that finds no id keeps the old text and sends no edit |
| Discord.WritePatchesMessage | tqdm/contrib/discord.py:57-72 | a write that finds an id records the text and sends exactly one edit of that message, after the lookup's requests |
| Discord.DeleteAlwaysSubmits | tqdm/contrib/discord.py:78-89 | `delete` always ends with one DELETE of the id the lookup gave, `None` included, preceded only by creation attempts |
| Discord.RepeatedWriteEditsOnce | tqdm/contrib/discord.py:50-72 | two identical writes in a row send at most one edit, whatever the creation replies |
| Discord.RequestsTargetMessage | tqdm/contrib/discord.py:28-89 | once the id is memoised, every request of any sequence of calls edits or deletes that message, and the id is kept |
| Discord.DiscordIO.constructor | tqdm/contrib/discord.py:20-26 | the sink holds its credentials, the class name as text, and the result of one `message_id` access |
| Discord.DiscordIO.MessageIdProperty | tqdm/contrib/discord.py:28-48 | the fields and logs change as `LookupStep` says, and the returned id is the lookup's |
| Discord.DiscordIO.Write | tqdm/contrib/discord.py:50-76 | the fields and logs change as `WriteStep` says; a future is returned exactly when an edit was submitted |
| Discord.DiscordIO.Delete | tqdm/contrib/discord.py:78-93 | the fields and logs change as `DeleteStep` says, and a future is always returned |
| Discord.SinkArguments | tqdm/contrib/discord.py:117-122 | a sink is built only when not disabled; each credential is the explicit keyword, else the environment variable |
| Discord.DiscordBar.constructor | tqdm/contrib/discord.py:106-123 | a disabled bar has no sink; an enabled one holds a fresh sink built with the resolved credentials |
| Discord.DiscordBar.Display | tqdm/contrib/discord.py:125-136 | the sink receives the meter rendered with the rewritten `bar_format`; a bar without a sink raises |
| Discord.DiscordBar.Clear | tqdm/contrib/discord.py:138-141 | an enabled bar writes the empty text to its sink |
| Discord.DiscordBar.Close | tqdm/contrib/discord.py:143-148 | the sink performs one delete exactly when `CloseDeletes` holds; otherwise the sink is unchanged |
| Logging.IsConsole | tqdm/contrib/logging.py:40-42 | definition of `_is_console_logging_handler`: a `StreamHandler` (tqdm's handler included) writing to stdout or stderr |
| Logging.FirstConsole | tqdm/contrib/logging.py:40-49 | None exactly when no handler is a console handler; otherwise the earliest console handler |
| Logging.NonConsole | tqdm/contrib/logging.py:96-98 | the kept handlers are exactly the non-console ones |
| Logging.NonConsoleAppend | tqdm/contrib/logging.py:96-98 | the filter keeps order: it distributes over concatenation |
| Logging.NonConsoleOfPlain | tqdm/contrib/logging.py:96-98 | a list without console handlers is kept unchanged |
| Logging.NewTqdmHandler | tqdm/contrib/logging.py:91-95 | the new handler is a tqdm handler; it inherits the first console handler's stream and formatter, else has stderr and no formatter; it is itself a console handler |
| Logging.Redirected | tqdm/contrib/logging.py:91-98 | definition of a logger's list while redirected: its non-console handlers, then the new tqdm handler |
| Logging.RedirectedShape | tqdm/contrib/logging.py:90-98 | a redirected list is the non-console handlers in order, then one tqdm handler, which is the only console handler |
| Logging.RedirectedInherits | tqdm/contrib/logging.py:91-95 | the appended handler's stream and formatter come from the first console handler, when there is one |
| Logging.RedirectedIdempotent | tqdm/contrib/logging.py:90-98 | redirecting a redirected list changes nothing, so a logger named twice ends up redirected once |
| Logging.FirstConsoleAfterPlain | tqdm/contrib/logging.py:45-49 | after non-console handlers, the first console handler is the appended one |
| Logging.ResolveLoggers | tqdm/contrib/logging.py:86-87 | no `loggers` argument means the root logger alone |
| Logging.Redirection.Enter | tqdm/contrib/logging.py:86-98 | the original lists are captured before any change; every logger then holds the redirected form of its original list |
| Logging.Redirection.Exit | tqdm/contrib/logging.py:100-102 | every logger gets back its captured list |
| Logging.RedirectScope | tqdm/contrib/logging.py:86-102 | whatever the body does to the loggers' handler lists, every logger ends with its original list |
| Logging.LoggingInit | tqdm/contrib/logging.py:177-192 | two or more positional arguments raise ValueError; otherwise logger, `mininterval`, `bar_format` and `desc` are the keywords if given, else their defaults |
| Logging.GetLogger | tqdm/contrib/logging.py:194-197 | the supplied logger, else the module logger `tqdm.contrib.logging` |
| Logging.DisplayStep | tqdm/contrib/logging.py:199-214 | definition of one `display` on values: the new `_last_log_n` and the message logged, if any |
| Logging.DisplaySkips | tqdm/contrib/logging.py:199-207 | nothing is logged and nothing changes before any progress or at an `n` already logged |
| Logging.DisplayMarksBeforeLogging | tqdm/contrib/logging.py:208-214 | otherwise `n` is marked as logged; the message (`msg`, else the bar's text) is logged exactly when it is non-empty |
| Logging.RepeatedDisplayLogsOnce | tqdm/contrib/logging.py:199-214 | any number of displays at the same `n` log at most one message, and none when `n` was already logged |
| Logging.LoggingBar.constructor | tqdm/contrib/logging.py:186-192 | the bar keeps the chosen logger and starts with `_last_log_n` = -1 and nothing logged |
| Logging.LoggingBar.Display | tqdm/contrib/logging.py:199-214 | `_last_log_n` and the log change as `DisplayStep` says, and `n` is left alone |

## Left out

- The background worker (`MonoWorker`, from `tqdm/contrib/utils_worker.py`) is not part of this model. Its thread, its one-slot backlog and its cancellation of pending tasks are not modelled. `submit` is modelled as appending the request to the log, and a returned future as the boolean `handed`.
- HTTP, JSON and the network are not modelled. Each creation post is a `Reply` parameter. Edits and deletions never fail in the model, since their failure would surface only on the uninspected future.
- Only the fact that an error was echoed to the local display is modelled, not its text. The rate-limit (429) warning is left out: it changes no state.
- Telegram message ids are modelled as strings, although the API returns integers. A Telegram reply body that is not JSON raises from `res.json()`. The model treats it like a reply without an id: both raise out of the constructor, and the exception class is not distinguished.
- A Discord reply `{"id": null}` is not modelled: the reply's id is either a string or absent.
- The base meter's own `display`, `clear`, `close`, `format_dict` and `format_meter` are not modelled; `format_meter` is the `render` parameter. The bar's `disable` is fixed when the bar is built: the invariant `Valid()` ties it to whether the bar has a sink for the bar's whole life. Any change to `disable` made inside the base meter's constructor after the sink was built, or later (for instance by the base meter's `close`), is not modelled. So in the model a second `Close` deletes again, and a `Clear` after `Close` still writes. `leave` is modelled as an optional boolean rather than an arbitrary truthy value.
- Telegram.TelegramBar.Open and Discord.DiscordBar.constructor do not model the keywords passed on to the base meter. In particular, `token` and `chat_id`/`channel_id` stay in the keywords when the bar is disabled.
- `write(None)` is modelled as `write("")`: both are falsy and become "...".
- Two value types are narrower than the source's. `LoggingBar.n` is an `int`, while the base meter's `n` may be a float, which `display` tests the same way (zero, equal to `_last_log_n`). And `mininterval` is an `Option<real>` in the Telegram and `logging_tqdm` options, so an explicit `mininterval=None`, which `pop`/`setdefault` would pass on, cannot be expressed.
- Hooks.RewriteBarFormat: the replacement of a placeholder by `{bar:10u}` is proved for a format holding one placeholder, with any other fields around it. A format holding several placeholders is covered only by RewriteRemovesPlaceholders (none is left), not by a statement of the exact result.
- `_TqdmLoggingHandler.emit` (formatting a record and writing it through `tqdm.write`) is I/O and is left out. So is the `LOGGER.debug` output of `logging_tqdm.display`.
- `tqdm_logging_redirect` is left out: it only combines a bar and `logging_redirect_tqdm`. So are the `ttgrange`/`ddrange` shortcuts and the `tqdm`/`trange`/`drange` aliases.
- `logging_tqdm` builds a disabled dummy bar before raising its ValueError, so that `__del__` finds its attributes. That dummy bar is left out.
- Logging.Redirection.Enter: handlers are values, so two equal handlers are not told apart. The model also does not capture code outside the scope mutating a captured list in place; the source stores references to those lists.
- The `tqdm_class` argument of `logging_redirect_tqdm` is not modelled; only the handler class is kept.
