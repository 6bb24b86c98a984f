/** The logger's configuration: the severity enumeration and its dense index,
    the per-severity table, the builder that edits one table in place, and the
    process-wide store that the finished table is saved into. */
module LogConfig {

  /** Severity of an event. `Unset` is the hidden `Log::_None` sentinel that
      marks "no severity selected yet" while a configuration is built. */
  datatype Log = Info | Warn | Error | Fatal | Unset

  /** Stack-trace policy; `NoBacktrace` is `Backtrace::_None`. */
  datatype Backtrace = NoBacktrace | Simple | Complex

  /** Clock used for the timestamp; global, not per severity. */
  datatype Time = UTC | Local

  /** Console target; `NoConsole` is `Console::_None` and switches the console off. */
  datatype Console = NoConsole | Stdout | Stderr

  newtype Byte = x: int | 0 <= x < 256

  /** A console color, as `colored::Color::TrueColor`. */
  datatype Color = TrueColor(r: Byte, g: Byte, b: Byte)

  /** An HTTP request template; the transport is not modelled, so a request is
      an opaque handle that the dispatcher passes along unchanged. */
  datatype Request = Request(handle: nat)

  /** One webhook sink: the request to send and the body format holding "{}". */
  datatype Webhook = Webhook(request: Request, format: string)

  /** The source's `Result<_, std::io::Error>`; an error carries its message. */
  datatype Result<T> = Ok(value: T) | Err(error: string)

  const ColorMsg := "You need to set a log type before you can set the color"
  const BacktraceMsg := "You need to set a log type before you can set the backtrace"
  const ConsoleMsg := "You need to set a log type before you can set if it goes to the terminal"
  const SinkMsg := "You need to set a log type before you can set where it should be sent to"
  const SetNoneMsg := "You can not set the current log type to none"

  /** Slot of a severity in the per-severity arrays; the sentinel fails with
      the caller's message. */
  function Index(workingOn: Log, ifNone: string): (r: Result<nat>)
    ensures r.Ok? <==> workingOn != Unset
    ensures r.Ok? ==> r.value < 4
    ensures r.Err? ==> r.error == ifNone
  {
    match workingOn
    case Info => Ok(0)
    case Warn => Ok(1)
    case Error => Ok(2)
    case Fatal => Ok(3)
    case Unset => Err(ifNone)
  }

  /** The severity stored at a slot: the inverse of Index. */
  function SeverityAt(i: nat): (l: Log)
    requires i < 4
    ensures l != Unset
  {
    [Info, Warn, Error, Fatal][i]
  }

  /** The value of a `Config` record: the global time mode, five arrays with one
      entry per severity, and the builder's current selection. */
  datatype Table = Table(
    time: Time,
    color: seq<Color>,
    console: seq<Console>,
    web: seq<seq<Webhook>>,
    file: seq<seq<string>>,
    backtrace: seq<Backtrace>,
    workingOn: Log)

  /** Every per-severity array has exactly one entry per severity. */
  predicate WellFormed(t: Table) {
    |t.color| == 4 && |t.console| == 4 && |t.web| == 4 && |t.file| == 4 && |t.backtrace| == 4
  }

  /** The table `new()` builds. */
  function Default(): (t: Table)
    ensures WellFormed(t) && t.workingOn == Unset
  {
    Table(
      Local,
      [TrueColor(0, 255, 255), TrueColor(255, 215, 185), TrueColor(255, 100, 0), TrueColor(255, 0, 0)],
      [Stdout, Stderr, Stderr, Stderr],
      [[], [], [], []],
      [[], [], [], []],
      [NoBacktrace, NoBacktrace, Simple, Complex],
      Unset)
  }

  /** One builder call, as a value, so that chains of calls can be reasoned about. */
  datatype Op =
    | WithTime(mode: Time)
    | SelectType(log: Log)
    | WithColor(color: Color)
    | WithBacktrace(policy: Backtrace)
    | WithConsole(target: Console)
    | PushWeb(format: string, request: Request)
    | PushFile(path: string)
  {
    /** Builder calls that write into the selected severity's slot. */
    predicate PerSeverity() {
      !WithTime? && !SelectType?
    }

    /** Message of the error a per-severity call gives when nothing is selected. */
    function UnselectedMsg(): string {
      match this
      case WithColor(_) => ColorMsg
      case WithBacktrace(_) => BacktraceMsg
      case WithConsole(_) => ConsoleMsg
      case _ => SinkMsg
    }
  }

  /** What one builder call does to a table's value. */
  function Apply(t: Table, op: Op): (r: Result<Table>)
    requires WellFormed(t)
    ensures r.Ok? ==> WellFormed(r.value)
  {
    match op
    case WithTime(m) => Ok(t.(time := m))
    case SelectType(l) => if l == Unset then Err(SetNoneMsg) else Ok(t.(workingOn := l))
    case WithColor(c) =>
      (match Index(t.workingOn, ColorMsg)
       case Err(e) => Err(e)
       case Ok(i) => Ok(t.(color := t.color[i := c])))
    case WithBacktrace(b) =>
      (match Index(t.workingOn, BacktraceMsg)
       case Err(e) => Err(e)
       case Ok(i) => Ok(t.(backtrace := t.backtrace[i := b])))
    case WithConsole(k) =>
      (match Index(t.workingOn, ConsoleMsg)
       case Err(e) => Err(e)
       case Ok(i) => Ok(t.(console := t.console[i := k])))
    case PushWeb(f, q) =>
      (match Index(t.workingOn, SinkMsg)
       case Err(e) => Err(e)
       case Ok(i) => Ok(t.(web := t.web[i := t.web[i] + [Webhook(q, f)]])))
    case PushFile(p) =>
      (match Index(t.workingOn, SinkMsg)
       case Err(e) => Err(e)
       case Ok(i) => Ok(t.(file := t.file[i := t.file[i] + [p]])))
  }

  /** A chain of builder calls joined by `?`: the first error ends the chain. */
  function Run(t: Table, ops: seq<Op>): (r: Result<Table>)
    requires WellFormed(t)
    ensures r.Ok? ==> WellFormed(r.value)
    decreases |ops|
  {
    if ops == [] then Ok(t)
    else match Apply(t, ops[0])
      case Err(e) => Err(e)
      case Ok(t1) => Run(t1, ops[1..])
  }

  /** A builder method's outcome agrees with Apply: on success the new value is
      Apply's, on failure the error is Apply's and the value is untouched. */
  predicate Steps(before: Table, op: Op, r: Result<()>, after: Table)
    requires WellFormed(before)
  {
    match Apply(before, op)
    case Ok(t) => r == Ok(()) && after == t
    case Err(e) => r == Err(e) && after == before
  }

  /** A `Config` being built. Each per-severity array is an `array` of length 4. */
  class Config {
    var time: Time
    var color: array<Color>
    var console: array<Console>
    var web: array<seq<Webhook>>
    var file: array<seq<string>>
    var backtrace: array<Backtrace>
    var workingOn: Log

    ghost predicate Valid()
      reads this
    {
      color.Length == 4 && console.Length == 4 && web.Length == 4 &&
      file.Length == 4 && backtrace.Length == 4
    }

    /** The record's current value. */
    function Snapshot(): (t: Table)
      reads this, color, console, web, file, backtrace
      requires Valid()
      ensures WellFormed(t)
    {
      Table(time, color[..], console[..], web[..], file[..], backtrace[..], workingOn)
    }

    /** `new()`: the default table with no severity selected. */
    constructor ()
      ensures Valid() && Snapshot() == Default()
      ensures fresh(color) && fresh(console) && fresh(web) && fresh(file) && fresh(backtrace)
    {
      time := Local;
      color := new Color[] [TrueColor(0, 255, 255), TrueColor(255, 215, 185), TrueColor(255, 100, 0), TrueColor(255, 0, 0)];
      console := new Console[] [Stdout, Stderr, Stderr, Stderr];
      web := new seq<Webhook>[] [[], [], [], []];
      file := new seq<string>[] [[], [], [], []];
      backtrace := new Backtrace[] [NoBacktrace, NoBacktrace, Simple, Complex];
      workingOn := Unset;
      new;
      assert color[..] == Default().color && console[..] == Default().console;
      assert web[..] == Default().web && file[..] == Default().file;
      assert backtrace[..] == Default().backtrace;
    }

    /** `time`: sets the global clock mode; never fails. */
    method SetTime(mode: Time)
      requires Valid()
      modifies this`time
      ensures Valid() && time == mode && workingOn == old(workingOn)
      ensures Snapshot() == old(Snapshot()).(time := mode)
      ensures Steps(old(Snapshot()), WithTime(mode), Ok(()), Snapshot())
    {
      time := mode;
    }

    /** `set_type`: selects the severity later calls write to; the sentinel is rejected. */
    method SetType(log: Log) returns (r: Result<()>)
      requires Valid()
      modifies this`workingOn
      ensures Valid()
      ensures log == Unset ==> r == Err(SetNoneMsg) && workingOn == old(workingOn)
      ensures log != Unset ==> r == Ok(()) && workingOn == log
      ensures Steps(old(Snapshot()), SelectType(log), r, Snapshot())
    {
      if log == Unset {
        r := Err(SetNoneMsg);
      } else {
        workingOn := log;
        r := Ok(());
      }
    }

    /** `color`: overwrites the selected severity's color. */
    method SetColor(c: Color) returns (r: Result<()>)
      requires Valid()
      modifies color
      ensures Valid()
      ensures workingOn == Unset <==> r.Err?
      ensures r.Err? ==> r.error == ColorMsg && color[..] == old(color[..])
      ensures r.Ok? ==> color[..] == old(color[..])[Index(workingOn, ColorMsg).value := c]
      ensures Steps(old(Snapshot()), WithColor(c), r, Snapshot())
    {
      var ix := Index(workingOn, ColorMsg);
      match ix
      case Err(e) => r := Err(e);
      case Ok(i) =>
        color[i] := c;
        r := Ok(());
    }

    /** `backtrace`: overwrites the selected severity's backtrace policy. */
    method SetBacktrace(b: Backtrace) returns (r: Result<()>)
      requires Valid()
      modifies backtrace
      ensures Valid()
      ensures workingOn == Unset <==> r.Err?
      ensures r.Err? ==> r.error == BacktraceMsg && backtrace[..] == old(backtrace[..])
      ensures r.Ok? ==> backtrace[..] == old(backtrace[..])[Index(workingOn, BacktraceMsg).value := b]
      ensures Steps(old(Snapshot()), WithBacktrace(b), r, Snapshot())
    {
      var ix := Index(workingOn, BacktraceMsg);
      match ix
      case Err(e) => r := Err(e);
      case Ok(i) =>
        backtrace[i] := b;
        r := Ok(());
    }

    /** `console`: overwrites the selected severity's console target. */
    method SetConsole(k: Console) returns (r: Result<()>)
      requires Valid()
      modifies console
      ensures Valid()
      ensures workingOn == Unset <==> r.Err?
      ensures r.Err? ==> r.error == ConsoleMsg && console[..] == old(console[..])
      ensures r.Ok? ==> console[..] == old(console[..])[Index(workingOn, ConsoleMsg).value := k]
      ensures Steps(old(Snapshot()), WithConsole(k), r, Snapshot())
    {
      var ix := Index(workingOn, ConsoleMsg);
      match ix
      case Err(e) => r := Err(e);
      case Ok(i) =>
        console[i] := k;
        r := Ok(());
    }

    /** `web`: appends a webhook to the selected severity's list. */
    method AddWeb(format: string, request: Request) returns (r: Result<()>)
      requires Valid()
      modifies web
      ensures Valid()
      ensures workingOn == Unset <==> r.Err?
      ensures r.Err? ==> r.error == SinkMsg && web[..] == old(web[..])
      ensures r.Ok? ==> var i := Index(workingOn, SinkMsg).value;
        web[..] == old(web[..])[i := old(web[i]) + [Webhook(request, format)]]
      ensures Steps(old(Snapshot()), PushWeb(format, request), r, Snapshot())
    {
      var ix := Index(workingOn, SinkMsg);
      match ix
      case Err(e) => r := Err(e);
      case Ok(i) =>
        web[i] := web[i] + [Webhook(request, format)];
        r := Ok(());
    }

    /** `file`: appends a path to the selected severity's list. */
    method AddFile(path: string) returns (r: Result<()>)
      requires Valid()
      modifies file
      ensures Valid()
      ensures workingOn == Unset <==> r.Err?
      ensures r.Err? ==> r.error == SinkMsg && file[..] == old(file[..])
      ensures r.Ok? ==> var i := Index(workingOn, SinkMsg).value;
        file[..] == old(file[..])[i := old(file[i]) + [path]]
      ensures Steps(old(Snapshot()), PushFile(path), r, Snapshot())
    {
      var ix := Index(workingOn, SinkMsg);
      match ix
      case Err(e) => r := Err(e);
      case Ok(i) =>
        file[i] := file[i] + [path];
        r := Ok(());
    }
  }

  /** What locking the store gives a reader: the live table, or the poisoned case. */
  datatype LockResult = Locked(config: Table) | Poisoned

  /** The process-wide `CONFIG` store. The mutex is reduced to a flag saying
      whether a previous holder poisoned it. */
  class Store {
    var current: Table
    var poisoned: bool

    ghost predicate Valid()
      reads this
    {
      WellFormed(current)
    }

    /** The store starts out holding `new()`. */
    constructor ()
      ensures Valid() && current == Default() && !poisoned
    {
      current := Default();
      poisoned := false;
    }

    /** `CONFIG.lock()`: a poisoned lock yields no table. */
    function Lock(): (r: LockResult)
      reads this
      ensures r.Poisoned? <==> poisoned
      ensures r.Locked? ==> r.config == current
    {
      if poisoned then Poisoned else Locked(current)
    }

    /** `save`: replaces the stored table wholesale with the builder's value,
        unless the lock is poisoned, in which case nothing is stored. */
    method Save(cfg: Config) returns (saved: bool)
      requires Valid() && cfg.Valid()
      modifies this`current
      ensures Valid()
      ensures saved == !poisoned
      ensures saved ==> current == cfg.Snapshot() && Lock() == Locked(cfg.Snapshot())
      ensures !saved ==> current == old(current)
    {
      if poisoned {
        saved := false;
      } else {
        current := cfg.Snapshot();
        saved := true;
      }
    }
  }
}
