# log4rust, modelled in Dafny

log4rust is a small Rust logging library. A program first builds a
configuration with a chain of builder calls:
`new().time(..).set_type(Log::Info)?.color(..)?.file("info.txt")?...save()`.
It then logs with the `info!`, `warn!`, `error!` and `fatal!` macros.

The configuration holds one global clock mode (UTC or local). It also holds
four-element arrays, indexed by severity (Info 0, Warn 1, Error 2, Fatal 3),
of:
- console colors;
- console targets;
- backtrace policies;
- webhook lists, each webhook a request plus a body format containing `{}`;
- file lists.

A hidden "nothing selected" severity guards every per-severity setter.
`save` replaces the process-wide configuration.

Each logging macro passes a tag ("info", "warn", "error" or "fatal") to one
dispatch routine. The routine locks the configuration and renders
`[time] message suffix`. It prints the line in color if the severity's
console target is on. Then it posts every webhook in order and appends the
line to every file in order, reporting each failure and carrying on. If the
lock cannot be taken, it prints one fallback line instead.

The project has five modules:

- `LogConfig` (`config.dfy`): the enumerations, `Index`, and the value `Table`
  with its defaults.
  - `Config` is a class whose builder methods update its arrays in place.
    Each method states its new array contents, and `Steps` ties each call
    to the value-level mirror `Apply`.
  - `Store` is the global configuration, with `Lock` and `Save`.
- `ConfigLemmas` (`config_lemmas.dfy`): what the builder promises, proved on
  `Apply` and on `Run`, which chains calls the way `?` does.
- `Text` (`text.dfy`): the decimal rendering of line and column numbers, and
  `str::replace("{}", text)`.
- `Dispatch` (`dispatch.dfy`): the dispatch routine.
  - The methods `Dispatch`, `SendWebhooks` and `AppendFiles` keep the
    source's two loops.
  - Each method is proved to produce the effect sequence that the function
    `Expected` specifies.
  - Clocks, the call site, the stack trace and the outcome of every send,
    open and write are inputs.
- `DispatchLemmas` (`dispatch_lemmas.dfy`): properties of `Expected`.
  - Effects are picked out by kind with `Keep`; `Targets` lists the files
    acted on.
  - Covered: routing, the console gate, webhook order and bodies, file order
    and contents, the report of every failed send, open and write and the
    color it is printed in, isolation between sinks, and the lock fallback.

Where the configuration code and the macro disagree, the model follows the
code:

- `log4rust_template` reads fields the configuration does not have:
  `config.info_backtrace`, a boolean `config.info_console`, `config.info_color`,
  `config.info_web`, `config.info_file`, and so on.
  - The model reads the same settings from the per-severity arrays, at the
    slot the tag selects.
  - The console is printed when the severity's target is not
    `Console::_None`.
- The console line is written with `println!` whichever target is chosen,
  so the effect records no stream.
- The lock fallback always uses the UTC clock.
- `Log::_None`, `Backtrace::_None` and `Console::_None` are called `Unset`,
  `NoBacktrace` and `NoConsole`.

## Model

| member | source | states |
|---|---|---|
| LogConfig.Index | src/config.rs:208-216 | succeeds exactly for the four real severities, always with a slot below 4; the sentinel fails with the caller's message |
| LogConfig.Config.constructor | src/config.rs:93-125 | builds local time, the four default colors, console targets Stdout/Stderr/Stderr/Stderr, backtraces None/None/Simple/Complex, empty webhook and file lists, nothing selected |
| LogConfig.Config.SetTime | src/config.rs:130-133 | sets only the time mode, never fails, keeps the selection |
| LogConfig.Config.SetType | src/config.rs:187-198 | the sentinel is rejected with its message and the selection kept; any other severity becomes the selection |
| LogConfig.Config.SetColor | src/config.rs:136-142 | fails exactly when nothing is selected, with the color message; otherwise overwrites only the selected slot of the color array |
| LogConfig.Config.SetBacktrace | src/config.rs:145-151 | fails exactly when nothing is selected, with the backtrace message; otherwise overwrites only the selected slot |
| LogConfig.Config.SetConsole | src/config.rs:154-160 | fails exactly when nothing is selected, with the terminal message; otherwise overwrites only the selected slot |
| LogConfig.Config.AddWeb | src/config.rs:165-172 | fails exactly when nothing is selected, with the sink message; otherwise appends (request, format) to the selected list and changes no other slot |
| LogConfig.Config.AddFile | src/config.rs:176-183 | fails exactly when nothing is selected, with the sink message; otherwise appends the path to the selected list and changes no other slot |
| LogConfig.Store.constructor | src/config.rs:7-10 | the process-wide store starts out holding the `new()` table, with the lock not poisoned |
| LogConfig.Store.Save | src/config.rs:201-205 | unless poisoned, the stored table becomes exactly the builder's value and a later lock reads it back; when poisoned nothing is stored |
| ConfigLemmas.IndexRoundTrip | src/config.rs:208-216 | the slot mapping is a bijection between the four severities and slots 0..3 |
| ConfigLemmas.IndexSlots | src/config.rs:72-76 | Info, Warn, Error and Fatal sit at slots 0, 1, 2 and 3 |
| ConfigLemmas.UnselectedSetterFails | src/config.rs:136-183 | with nothing selected, each of color, backtrace, console, web and file fails with its own message |
| ConfigLemmas.FreshConfigRejectsSetters | src/config.rs:93-183 | on a fresh `new()` table every per-severity setter fails |
| ConfigLemmas.SelectTypeOnlySelects | src/config.rs:187-198 | set_type fails exactly on the sentinel; otherwise it changes the selection and no other field |
| ConfigLemmas.TimeOnlySetsTime | src/config.rs:130-133 | time never fails and leaves every other field, the selection included, unchanged |
| ConfigLemmas.OverwriteOnlySelectedSlot | src/config.rs:136-160 | with a selection, color/backtrace/console write the selected slot of their own array; other slots, other arrays, time and selection are unchanged |
| ConfigLemmas.AppendOnlySelectedSlot | src/config.rs:165-183 | with a selection, web/file append one entry at the end of the selected list; earlier entries and other slots are unchanged |
| ConfigLemmas.FilesAccumulate | src/config.rs:176-183 | successive file calls add their paths to the selected list in call order |
| ConfigLemmas.UnselectedChainFails | src/config.rs:136-183 | a chain without set_type fails at its first per-severity setter, with that setter's message |
| ConfigLemmas.SelectedValuesReadBack | src/config.rs:136-198 | after set_type(l) and setting color, console and backtrace, l's slot holds exactly those values and nothing else changed |
| ConfigLemmas.DocumentedChainIsDefault | src/config.rs:44-54 | the chain documented as "the default configuration written out" yields the `new()` table, with Fatal left selected |
| Text.Decimal | src/macro.rs:60 | the rendering of a number is a non-empty digit string that starts with 0 only when it is exactly "0" |
| Text.DecimalRoundTrip | src/macro.rs:60 | reading the digits back gives the number |
| Text.SubstituteFirst | src/macro.rs:90 | the first "{}" after a placeholder-free prefix is replaced by the line and the rest is processed the same way |
| Text.NoPlaceholderUnchanged | src/macro.rs:90 | a format without "{}" is sent unchanged |
| Text.SubstituteLength | src/macro.rs:90 | the body is as long as the format, with each placeholder's two characters traded for the whole line |
| Text.PlaceholdersZero | src/macro.rs:90 | the count of replaced placeholders is zero exactly when the format has no "{}" |
| Dispatch.Route | src/macro.rs:51-56 | "info", "warn" and "error" select their own severity, if and only if; every other tag selects Fatal |
| Dispatch.SendWebhooks | src/macro.rs:89-94 | the webhook loop produces exactly the specified sends and diagnostics |
| Dispatch.AppendFiles | src/macro.rs:103-115 | the file loop produces exactly the specified writes and diagnostics, whose order, contents and failure reports the FileLoop lemmas state |
| Dispatch.Dispatch | src/macro.rs:46-118 | the routine produces exactly Expected: the fallback when the lock fails; otherwise console, then webhooks, then files, with every outcome of every sink stated by the lemmas below |
| DispatchLemmas.WebLoopSends | src/macro.rs:89-90 | every webhook is sent, in list order, with its format's "{}" replaced by the line, whatever the sends return |
| DispatchLemmas.WebLoopFailures | src/macro.rs:89-94 | the loop reports exactly one diagnostic per failed send |
| DispatchLemmas.WebLoopQuiet | src/macro.rs:89-94 | the webhook loop prints no line and acts on no file |
| DispatchLemmas.FileLoopTargets | src/macro.rs:103-115 | every path is acted on once, in list order, whatever opening or writing returns |
| DispatchLemmas.FileLoopWrites | src/macro.rs:103-112 | when every file opens, each receives exactly one write of the line and a newline, in list order |
| DispatchLemmas.FileLoopData | src/macro.rs:109 | every write is the identical line followed by a newline |
| DispatchLemmas.OpenedWritesCount | src/macro.rs:103-112 | the files that open receive one write each: as many writes as files less the failed opens |
| DispatchLemmas.FileItemKinds | src/macro.rs:104-113 | one file gets a write exactly when it opens, an open diagnostic exactly when it does not, and a write diagnostic exactly when it opens and the write fails |
| DispatchLemmas.FileLoopFailures | src/macro.rs:103-115 | a file that does not open receives no write and is reported once, every file that opens receives the line, and every failed write is reported once |
| DispatchLemmas.WebLoopColor | src/macro.rs:89-94 | every request diagnostic is printed in the color the loop is given |
| DispatchLemmas.FileLoopColor | src/macro.rs:103-115 | every open or write diagnostic is printed in the color the loop is given |
| DispatchLemmas.FileLoopQuiet | src/macro.rs:103-115 | the file loop prints no line, sends nothing and reports no request failure |
| DispatchLemmas.FileLoopIgnoresSends | src/macro.rs:103-115 | the file loop depends only on the open and write outcomes |
| DispatchLemmas.ConsoleGate | src/macro.rs:66-80 | exactly one console line, the rendered one in the severity's color, when the target is on; none when off |
| DispatchLemmas.WebhooksInOrder | src/macro.rs:82-94 | a dispatch sends the selected severity's webhooks in order with substituted bodies |
| DispatchLemmas.WebhookFailuresReported | src/macro.rs:89-94 | a dispatch reports as many request failures as sends failed |
| DispatchLemmas.FileFailuresReported | src/macro.rs:96-115 | a dispatch writes exactly to the selected files that open, reports each failed open once and each failed write once |
| DispatchLemmas.DiagnosticsInFatalColor | src/macro.rs:89-115 | every failure a dispatch reports is printed in Fatal's color |
| DispatchLemmas.FilesInOrder | src/macro.rs:96-115 | a dispatch acts on the selected severity's files in order, and every write is the line plus a newline |
| DispatchLemmas.FileWritesOnlyFromFileOracles | src/macro.rs:103-115 | what the files receive does not depend on webhook outcomes |
| DispatchLemmas.FilesAllOpen | src/macro.rs:96-112 | when all files open, a dispatch writes the line to each of them once, in order |
| DispatchLemmas.SinkIsolation | src/macro.rs:89-115 | which webhooks are sent and which files are acted on does not depend on any sink's outcome |
| DispatchLemmas.NoSinksOnlyConsole | src/macro.rs:46-115 | with no webhooks and no files, the console line (when on) is the only effect |
| DispatchLemmas.LockFailureFallback | src/macro.rs:117 | a failed lock prints one fallback line, the UTC-mode time prefix and the message with no suffix, and touches no webhook or file |
| DispatchLemmas.LineLayout | src/macro.rs:48-64 | the line is "[" time "]", a space, the message verbatim, then the suffix, each at its own position |
| DispatchLemmas.SuffixShapes | src/macro.rs:60 | the Simple suffix is " (file:line:column)" with line and column as digit strings that read back as the numbers |
| DispatchLemmas.TagRouting | src/macro.rs:1-56 | each entry macro's tag selects its own severity's slot; unknown tags use Fatal's |
| DispatchLemmas.DefaultErrorLine | src/macro.rs:48-64 | under the defaults, `error!("disk full")` renders as local time, the message and the call site |
| DispatchLemmas.DefaultErrorDiskFull | src/macro.rs:46-80 | under the defaults, `error!("disk full")` prints that one line in the Error color and does nothing else |
| ConfigLemmas.FileGroupAppends | src/config.rs:176-198 | set_type followed by two file calls selects the severity and appends both paths, in order, to its list only |
| ConfigLemmas.FileExampleTable | examples/file/src/main.rs:4-9 | the file example's builder chain keeps every default and gives each severity its own file followed by "all.txt" |
| DispatchLemmas.TwoFilesWrites | src/macro.rs:96-112 | a severity with two files that both open writes the line to the first, then to the second |
| DispatchLemmas.FileExampleWrites | examples/file/src/main.rs:4-15 | after the file example's chain, every event whose files open writes its line to its severity's own file and then to "all.txt" |
| DispatchLemmas.WebExampleBody | examples/web/src/main.rs:6-7 | the Info webhook format puts the line between the quotes of "Body" and leaves the rest of the JSON as is |

## Left out

- The `lazy_static` global mutex. The store is a class with a `poisoned` flag, and the dispatch routine takes the lock outcome as an input.
- Concurrency between loggers, and how a lock becomes poisoned.
- Clock reading and the `chrono` timestamp format: both clocks arrive as already formatted strings.
- Stack-trace capture and `file!()`/`line!()`/`column!()`: they arrive as a string and numbers.
- The HTTP transport (`ureq`): a request is an opaque handle, and whether the k-th send succeeds is an input.
- File opening and writing: whether the k-th open and the k-th write succeed are inputs. A write is recorded only after a successful open.
- Terminal colorization (`colored`): a console line carries its color as data.
- The exact wording of the diagnostics and the error values they print: a diagnostic records its kind, the tag, the line and, for an open failure, the path.
- `format!` interpolation in the entry macros: the message arrives already rendered.
- `src/lib.rs`, which only re-exports. `src/lib.rs` is not part of this model.
- Color variants other than `TrueColor`.
- The boolean `console(true)` / `console(false)` calls in the documentation and the default example: they belong to an older API that `Config::console` no longer accepts.
- LogConfig.Config.SetColor: on error the model keeps the builder unchanged, where Rust consumes it and returns only the error.
- LogConfig.Config.SetBacktrace: on error the builder is kept unchanged rather than dropped.
- LogConfig.Config.SetConsole: on error the builder is kept unchanged rather than dropped.
- LogConfig.Config.AddWeb: on error the builder is kept unchanged rather than dropped.
- LogConfig.Config.AddFile: on error the builder is kept unchanged rather than dropped.
- LogConfig.Config.SetType: on error the builder is kept unchanged rather than dropped.
- LogConfig.Store.Save: the poison error's payload is not returned, only whether saving happened.
