/** The dispatch routine behind `info!`, `warn!`, `error!` and `fatal!`: it
    renders one line from a configuration snapshot and fans it out to the
    console, the webhooks and the files of the event's severity. Clocks, the
    call site, the captured stack trace and the outcome of every sink action
    are inputs; what the routine does is a sequence of effects. */
module Dispatch {
  import opened LogConfig
  import opened Text

  /** Both clocks, already formatted by the time library. */
  datatype Clocks = Clocks(local: string, utc: string)

  /** Call site of the entry macro (`file!()`, `line!()`, `column!()`). */
  datatype Location = Location(file: string, line: nat, column: nat)

  /** One log call: its tag, its already formatted message, and what the
      environment provides at that moment. */
  datatype Event = Event(tag: string, message: string, clocks: Clocks, site: Location, trace: string)

  /** Outcome of each sink action, by position in its list: sending the k-th
      webhook, opening the k-th file, writing to the k-th file. */
  datatype Oracles = Oracles(sendOk: nat -> bool, openOk: nat -> bool, writeOk: nat -> bool)

  /** A failure the routine reports instead of propagating. */
  datatype Failure =
    | RequestFailed(tag: string, text: string)
    | OpenFailed(path: string, tag: string, text: string)
    | WriteFailed(tag: string, text: string)

  /** What the routine does, in order. HttpSend is a send attempt; FileWrite is
      a write attempted on a file that opened. Diagnostics are printed in the
      Fatal color. */
  datatype Effect =
    | ConsoleLine(text: string, color: Color)
    | HttpSend(request: Request, body: string)
    | FileWrite(path: string, data: string)
    | Diagnostic(failure: Failure, color: Color)
    | LockFallback(tag: string, text: string)

  /** The severity whose settings a tag selects: "info", "warn" and "error"
      their own, any other tag Fatal's. */
  function Route(tag: string): (l: Log)
    ensures l != Unset
    ensures l == Info <==> tag == "info"
    ensures l == Warn <==> tag == "warn"
    ensures l == Error <==> tag == "error"
  {
    if tag == "info" then Info
    else if tag == "warn" then Warn
    else if tag == "error" then Error
    else Fatal
  }

  /** The tag each entry macro passes. */
  function Tag(l: Log): string
    requires l != Unset
  {
    match l
    case Info => "info"
    case Warn => "warn"
    case Error => "error"
    case Fatal => "fatal"
  }

  /** Slot of the settings a tag selects. */
  function Slot(tag: string): (i: nat)
    ensures i < 4 && Index(Route(tag), "") == Ok(i)
  {
    Index(Route(tag), "").value
  }

  /** "[ts]" with the UTC clock when the mode is UTC, the local one otherwise. */
  function TimePrefix(mode: Time, clocks: Clocks): string {
    "[" + (if mode == UTC then clocks.utc else clocks.local) + "]"
  }

  /** What the backtrace policy appends to the line. */
  function Suffix(policy: Backtrace, site: Location, trace: string): string {
    match policy
    case NoBacktrace => ""
    case Simple => " (" + site.file + ":" + Decimal(site.line) + ":" + Decimal(site.column) + ")"
    case Complex => "\n" + trace
  }

  /** The line an event renders to under a table. */
  function Line(t: Table, ev: Event): string
    requires WellFormed(t)
  {
    TimePrefix(t.time, ev.clocks) + " " + ev.message + Suffix(t.backtrace[Slot(ev.tag)], ev.site, ev.trace)
  }

  /** The console effect: one colored line unless the target is off. */
  function ConsoleEffects(target: Console, text: string, color: Color): seq<Effect> {
    if target != NoConsole then [ConsoleLine(text, color)] else []
  }

  /** Effects of one webhook: the send, then a diagnostic if it failed. */
  function WebItem(hook: Webhook, text: string, tag: string, ok: bool, fatal: Color): seq<Effect> {
    var send := HttpSend(hook.request, Substitute(hook.format, text));
    if ok then [send] else [send, Diagnostic(RequestFailed(tag, text), fatal)]
  }

  /** Effects of the first n webhooks, in list order. */
  function WebEffects(hooks: seq<Webhook>, n: nat, text: string, tag: string, sendOk: nat -> bool, fatal: Color): seq<Effect>
    requires n <= |hooks|
  {
    if n == 0 then []
    else WebEffects(hooks, n - 1, text, tag, sendOk, fatal) + WebItem(hooks[n - 1], text, tag, sendOk(n - 1), fatal)
  }

  /** What a file receives: the line and its newline. */
  function Newline(text: string): string {
    text + "\n"
  }

  /** Effects of one file: a diagnostic if it does not open; otherwise the
      write of the line and its newline, then a diagnostic if that failed. */
  function FileItem(path: string, text: string, tag: string, openOk: bool, writeOk: bool, fatal: Color): seq<Effect> {
    if !openOk then [Diagnostic(OpenFailed(path, tag, text), fatal)]
    else if writeOk then [FileWrite(path, Newline(text))]
    else [FileWrite(path, Newline(text)), Diagnostic(WriteFailed(tag, text), fatal)]
  }

  /** Effects of the first n files, in list order. */
  function FileEffects(paths: seq<string>, n: nat, text: string, tag: string,
                       openOk: nat -> bool, writeOk: nat -> bool, fatal: Color): seq<Effect>
    requires n <= |paths|
  {
    if n == 0 then [] else
      FileEffects(paths, n - 1, text, tag, openOk, writeOk, fatal) +
      FileItem(paths[n - 1], text, tag, openOk(n - 1), writeOk(n - 1), fatal)
  }

  /** The line printed when the lock cannot be taken: the UTC time and the
      message, without any configuration. */
  function FallbackText(ev: Event): string {
    "[" + ev.clocks.utc + "] " + ev.message
  }

  /** Everything one call of the routine does. */
  function Expected(lock: LockResult, ev: Event, or: Oracles): seq<Effect>
    requires lock.Locked? ==> WellFormed(lock.config)
  {
    match lock
    case Poisoned => [LockFallback(ev.tag, FallbackText(ev))]
    case Locked(t) =>
      var i := Slot(ev.tag);
      var text := Line(t, ev);
      ConsoleEffects(t.console[i], text, t.color[i]) +
      WebEffects(t.web[i], |t.web[i]|, text, ev.tag, or.sendOk, t.color[3]) +
      FileEffects(t.file[i], |t.file[i]|, text, ev.tag, or.openOk, or.writeOk, t.color[3])
  }

  /** The webhook loop: every webhook of the severity is posted in list
      order, with "{}" in its format replaced by the line; a failed send is
      reported and the loop carries on. */
  method SendWebhooks(web: seq<Webhook>, text: string, tag: string, sendOk: nat -> bool, fatal: Color)
    returns (effects: seq<Effect>)
    ensures effects == WebEffects(web, |web|, text, tag, sendOk, fatal)
  {
    effects := [];
    for k := 0 to |web|
      invariant effects == WebEffects(web, k, text, tag, sendOk, fatal)
    {
      var send := HttpSend(web[k].request, Substitute(web[k].format, text));
      ghost var before := effects;
      effects := effects + [send];
      if !sendOk(k) {
        effects := effects + [Diagnostic(RequestFailed(tag, text), fatal)];
        assert effects == before + [send, Diagnostic(RequestFailed(tag, text), fatal)];
      }
    }
  }

  /** The file loop: every file of the severity is opened for appending in
      list order and receives the line and a newline; a file that does not
      open, or a write that fails, is reported and the loop carries on. */
  method AppendFiles(file: seq<string>, text: string, tag: string, openOk: nat -> bool, writeOk: nat -> bool, fatal: Color)
    returns (effects: seq<Effect>)
    ensures effects == FileEffects(file, |file|, text, tag, openOk, writeOk, fatal)
  {
    effects := [];
    for k := 0 to |file|
      invariant effects == FileEffects(file, k, text, tag, openOk, writeOk, fatal)
    {
      if !openOk(k) {
        effects := effects + [Diagnostic(OpenFailed(file[k], tag, text), fatal)];
      } else {
        var write := FileWrite(file[k], Newline(text));
        ghost var before := effects;
        effects := effects + [write];
        if !writeOk(k) {
          effects := effects + [Diagnostic(WriteFailed(tag, text), fatal)];
          assert effects == before + [write, Diagnostic(WriteFailed(tag, text), fatal)];
        }
      }
    }
  }

  /** `log4rust_template`: lock, render, print, then send every webhook and
      append to every file, reporting each failure and carrying on. */
  method Dispatch(lock: LockResult, ev: Event, or: Oracles) returns (effects: seq<Effect>)
    requires lock.Locked? ==> WellFormed(lock.config)
    ensures effects == Expected(lock, ev, or)
  {
    match lock
    case Poisoned =>
      effects := [LockFallback(ev.tag, FallbackText(ev))];
    case Locked(config) =>
      var i := Slot(ev.tag);
      var text := Line(config, ev);
      var fatal := config.color[3];
      effects := [];
      if config.console[i] != NoConsole {
        effects := effects + [ConsoleLine(text, config.color[i])];
      }
      var sent := SendWebhooks(config.web[i], text, ev.tag, or.sendOk, fatal);
      effects := effects + sent;
      var written := AppendFiles(config.file[i], text, ev.tag, or.openOk, or.writeOk, fatal);
      effects := effects + written;
  }
}
