/** Properties of one dispatch, stated on Expected, which the method
    `Dispatch.Dispatch` is proved to produce. */
module DispatchLemmas {
  import opened LogConfig
  import opened Text
  import opened Dispatch
  import opened ConfigLemmas

  /** The kinds of effect the properties below pick out of a dispatch. */
  datatype Kind =
    | ConsoleKind | SendKind | WriteKind
    | RequestFailureKind | OpenFailureKind | WriteFailureKind | FallbackKind

  /** The kind of an effect. */
  function KindOf(e: Effect): Kind {
    match e
    case ConsoleLine(_, _) => ConsoleKind
    case HttpSend(_, _) => SendKind
    case FileWrite(_, _) => WriteKind
    case Diagnostic(RequestFailed(_, _), _) => RequestFailureKind
    case Diagnostic(OpenFailed(_, _, _), _) => OpenFailureKind
    case Diagnostic(WriteFailed(_, _), _) => WriteFailureKind
    case LockFallback(_, _) => FallbackKind
  }

  /** The effects of kind k, in their order. */
  function Keep(es: seq<Effect>, k: Kind): seq<Effect> {
    if es == [] then [] else (if KindOf(es[0]) == k then [es[0]] else []) + Keep(es[1..], k)
  }

  /** The file an effect acts on, if any: a path is acted on when it is
      written to or when opening it fails. */
  function Target(e: Effect): seq<string> {
    match e
    case FileWrite(p, _) => [p]
    case Diagnostic(OpenFailed(p, _, _), _) => [p]
    case _ => []
  }

  /** The file paths acted on, in order. */
  function Targets(es: seq<Effect>): seq<string> {
    if es == [] then [] else Target(es[0]) + Targets(es[1..])
  }

  /** Number of positions below n whose oracle says the action failed. */
  function Failures(ok: nat -> bool, n: nat): nat {
    if n == 0 then 0 else Failures(ok, n - 1) + (if ok(n - 1) then 0 else 1)
  }

  /** The bodies the first n webhooks are sent with: each format with the
      line substituted for "{}". */
  function Sends(hooks: seq<Webhook>, n: nat, text: string): (r: seq<Effect>)
    requires n <= |hooks|
    ensures |r| == n
  {
    seq(n, k requires 0 <= k < n => HttpSend(hooks[k].request, Substitute(hooks[k].format, text)))
  }

  lemma {:induction false} KeepConcat(a: seq<Effect>, b: seq<Effect>, k: Kind)
    ensures Keep(a + b, k) == Keep(a, k) + Keep(b, k)
    decreases |a|
  {
    if a == [] {
      assert a + b == b;
    } else {
      assert (a + b)[0] == a[0] && (a + b)[1..] == a[1..] + b;
      KeepConcat(a[1..], b, k);
    }
  }

  lemma {:induction false} TargetsConcat(a: seq<Effect>, b: seq<Effect>)
    ensures Targets(a + b) == Targets(a) + Targets(b)
    decreases |a|
  {
    if a == [] {
      assert a + b == b;
    } else {
      assert (a + b)[0] == a[0] && (a + b)[1..] == a[1..] + b;
      TargetsConcat(a[1..], b);
    }
  }

  lemma KeepSingleton(e: Effect, k: Kind)
    ensures Keep([e], k) == if KindOf(e) == k then [e] else []
    ensures Targets([e]) == Target(e)
  {
    assert [e][1..] == [];
  }

  /** One webhook's effects: its send, with the substituted body, then one
      diagnostic exactly when the send failed. */
  lemma WebItemKinds(hook: Webhook, text: string, tag: string, ok: bool, fatal: Color)
    ensures var item := WebItem(hook, text, tag, ok, fatal);
      Keep(item, SendKind) == [HttpSend(hook.request, Substitute(hook.format, text))] &&
      |Keep(item, RequestFailureKind)| == (if ok then 0 else 1) && WebOnly(item)
  {
    var send := HttpSend(hook.request, Substitute(hook.format, text));
    var diag := Diagnostic(RequestFailed(tag, text), fatal);
    KeepSingleton(send, SendKind);
    KeepSingleton(send, RequestFailureKind);
    if !ok {
      KeepSingleton(diag, SendKind);
      KeepSingleton(diag, RequestFailureKind);
      KeepConcat([send], [diag], SendKind);
      KeepConcat([send], [diag], RequestFailureKind);
      assert [send, diag] == [send] + [diag];
    }
  }

  lemma KeepSnoc(a: seq<Effect>, b: seq<Effect>, k: Kind, front: seq<Effect>, last: Effect)
    requires Keep(a, k) == front && Keep(b, k) == [last]
    ensures Keep(a + b, k) == front + [last]
  {
    KeepConcat(a, b, k);
  }

  lemma KeepCount(a: seq<Effect>, b: seq<Effect>, k: Kind)
    ensures |Keep(a + b, k)| == |Keep(a, k)| + |Keep(b, k)|
  {
    KeepConcat(a, b, k);
  }

  /** The webhook loop sends every webhook in list order, with the substituted
      body, whatever the sends return. */
  lemma {:induction false} WebLoopSends(hooks: seq<Webhook>, n: nat, text: string, tag: string, sendOk: nat -> bool, fatal: Color)
    requires n <= |hooks|
    ensures Keep(WebEffects(hooks, n, text, tag, sendOk, fatal), SendKind) == Sends(hooks, n, text)
    decreases n
  {
    if n > 0 {
      var w0 := WebEffects(hooks, n - 1, text, tag, sendOk, fatal);
      var item := WebItem(hooks[n - 1], text, tag, sendOk(n - 1), fatal);
      var send := HttpSend(hooks[n - 1].request, Substitute(hooks[n - 1].format, text));
      assert WebEffects(hooks, n, text, tag, sendOk, fatal) == w0 + item;
      WebLoopSends(hooks, n - 1, text, tag, sendOk, fatal);
      WebItemKinds(hooks[n - 1], text, tag, sendOk(n - 1), fatal);
      KeepSnoc(w0, item, SendKind, Sends(hooks, n - 1, text), send);
      assert Sends(hooks, n, text) == Sends(hooks, n - 1, text) + [send];
    }
  }

  /** The webhook loop reports one diagnostic per failed send. */
  lemma {:induction false} WebLoopFailures(hooks: seq<Webhook>, n: nat, text: string, tag: string, sendOk: nat -> bool, fatal: Color)
    requires n <= |hooks|
    ensures |Keep(WebEffects(hooks, n, text, tag, sendOk, fatal), RequestFailureKind)| == Failures(sendOk, n)
    decreases n
  {
    if n > 0 {
      var w0 := WebEffects(hooks, n - 1, text, tag, sendOk, fatal);
      var item := WebItem(hooks[n - 1], text, tag, sendOk(n - 1), fatal);
      assert WebEffects(hooks, n, text, tag, sendOk, fatal) == w0 + item;
      WebLoopFailures(hooks, n - 1, text, tag, sendOk, fatal);
      WebItemKinds(hooks[n - 1], text, tag, sendOk(n - 1), fatal);
      KeepCount(w0, item, RequestFailureKind);
    }
  }

  /** The kinds of effect the webhook loop makes. */
  predicate WebKind(k: Kind) {
    k == SendKind || k == RequestFailureKind
  }

  /** Every effect of es is one the webhook loop makes. */
  predicate WebOnly(es: seq<Effect>) {
    forall j :: 0 <= j < |es| ==> WebKind(KindOf(es[j]))
  }

  /** The webhook loop makes only sends and request diagnostics. */
  lemma {:induction false} WebLoopOnly(hooks: seq<Webhook>, n: nat, text: string, tag: string, sendOk: nat -> bool, fatal: Color)
    requires n <= |hooks|
    ensures WebOnly(WebEffects(hooks, n, text, tag, sendOk, fatal))
    decreases n
  {
    if n > 0 {
      var w0 := WebEffects(hooks, n - 1, text, tag, sendOk, fatal);
      var item := WebItem(hooks[n - 1], text, tag, sendOk(n - 1), fatal);
      var w := w0 + item;
      assert WebEffects(hooks, n, text, tag, sendOk, fatal) == w;
      WebLoopOnly(hooks, n - 1, text, tag, sendOk, fatal);
      WebItemKinds(hooks[n - 1], text, tag, sendOk(n - 1), fatal);
      forall j | 0 <= j < |w| ensures WebKind(KindOf(w[j])) {
        if j < |w0| { assert w[j] == w0[j]; } else { assert w[j] == item[j - |w0|]; }
      }
    }
  }

  /** Effects that neither write nor fail to open act on no file. */
  lemma {:induction false} TargetsAbsent(es: seq<Effect>)
    requires forall j :: 0 <= j < |es| ==> KindOf(es[j]) != WriteKind && KindOf(es[j]) != OpenFailureKind
    ensures Targets(es) == []
    decreases |es|
  {
    if es != [] {
      assert forall j :: 0 <= j < |es[1..]| ==> es[1..][j] == es[j + 1];
      TargetsAbsent(es[1..]);
    }
  }

  /** The webhook loop prints no line and touches no file. */
  lemma WebLoopQuiet(hooks: seq<Webhook>, n: nat, text: string, tag: string, sendOk: nat -> bool, fatal: Color)
    requires n <= |hooks|
    ensures var w := WebEffects(hooks, n, text, tag, sendOk, fatal);
      Keep(w, ConsoleKind) == [] && Keep(w, WriteKind) == [] && Targets(w) == []
  {
    var w := WebEffects(hooks, n, text, tag, sendOk, fatal);
    WebLoopOnly(hooks, n, text, tag, sendOk, fatal);
    KeepAbsent(w, ConsoleKind);
    KeepAbsent(w, WriteKind);
    TargetsAbsent(w);
  }

  /** Every write among es carries data. */
  predicate WritesCarry(es: seq<Effect>, data: string) {
    forall j :: 0 <= j < |es| && es[j].FileWrite? ==> es[j].data == data
  }

  /** One file's effects act on its path once. */
  lemma FileItemTargets(path: string, text: string, tag: string, openOk: bool, writeOk: bool, fatal: Color)
    ensures Targets(FileItem(path, text, tag, openOk, writeOk, fatal)) == [path]
  {
    if !openOk {
      KeepSingleton(Diagnostic(OpenFailed(path, tag, text), fatal), ConsoleKind);
    } else {
      var w := FileWrite(path, Newline(text));
      var d := Diagnostic(WriteFailed(tag, text), fatal);
      KeepSingleton(w, ConsoleKind);
      if !writeOk {
        KeepSingleton(d, ConsoleKind);
        TargetsConcat([w], [d]);
        assert [w, d] == [w] + [d];
      }
    }
  }

  /** Any write among one file's effects is the line and its newline. */
  lemma FileItemWrites(path: string, text: string, tag: string, openOk: bool, writeOk: bool, fatal: Color)
    ensures WritesCarry(FileItem(path, text, tag, openOk, writeOk, fatal), Newline(text))
  {
  }

  /** One more file adds its path to the paths acted on. */
  lemma FileTargetsStep(paths: seq<string>, n: nat, text: string, tag: string, openOk: nat -> bool, writeOk: nat -> bool, fatal: Color)
    requires 0 < n <= |paths|
    ensures Targets(FileEffects(paths, n, text, tag, openOk, writeOk, fatal)) ==
      Targets(FileEffects(paths, n - 1, text, tag, openOk, writeOk, fatal)) + [paths[n - 1]]
  {
    var f0 := FileEffects(paths, n - 1, text, tag, openOk, writeOk, fatal);
    var item := FileItem(paths[n - 1], text, tag, openOk(n - 1), writeOk(n - 1), fatal);
    assert FileEffects(paths, n, text, tag, openOk, writeOk, fatal) == f0 + item;
    FileItemTargets(paths[n - 1], text, tag, openOk(n - 1), writeOk(n - 1), fatal);
    TargetsConcat(f0, item);
  }

  /** The file loop acts on every path in list order, whatever opening or
      writing returns. */
  lemma {:induction false} FileLoopTargets(paths: seq<string>, n: nat, text: string, tag: string, openOk: nat -> bool, writeOk: nat -> bool, fatal: Color)
    requires n <= |paths|
    ensures Targets(FileEffects(paths, n, text, tag, openOk, writeOk, fatal)) == paths[..n]
    decreases n
  {
    if n > 0 {
      FileTargetsStep(paths, n, text, tag, openOk, writeOk, fatal);
      FileLoopTargets(paths, n - 1, text, tag, openOk, writeOk, fatal);
      assert paths[..n] == paths[..n - 1] + [paths[n - 1]];
    }
  }

  /** The writes the first n files receive when each of them opens. */
  function Writes(paths: seq<string>, n: nat, text: string): (r: seq<Effect>)
    requires n <= |paths|
    ensures |r| == n
  {
    seq(n, k requires 0 <= k < n => FileWrite(paths[k], Newline(text)))
  }

  /** One more file that opens adds one write of the line. */
  lemma FileWritesStep(paths: seq<string>, n: nat, text: string, tag: string, openOk: nat -> bool, writeOk: nat -> bool, fatal: Color)
    requires 0 < n <= |paths| && openOk(n - 1)
    ensures Keep(FileEffects(paths, n, text, tag, openOk, writeOk, fatal), WriteKind) ==
      Keep(FileEffects(paths, n - 1, text, tag, openOk, writeOk, fatal), WriteKind) + [FileWrite(paths[n - 1], Newline(text))]
  {
    var f0 := FileEffects(paths, n - 1, text, tag, openOk, writeOk, fatal);
    var item := FileItem(paths[n - 1], text, tag, true, writeOk(n - 1), fatal);
    var w := FileWrite(paths[n - 1], Newline(text));
    assert FileEffects(paths, n, text, tag, openOk, writeOk, fatal) == f0 + item;
    KeepSingleton(w, WriteKind);
    if !writeOk(n - 1) {
      var d := Diagnostic(WriteFailed(tag, text), fatal);
      KeepSingleton(d, WriteKind);
      KeepConcat([w], [d], WriteKind);
      assert item == [w] + [d];
    }
    KeepConcat(f0, item, WriteKind);
  }

  /** When every file opens, each receives exactly one write, in list order,
      whatever the writes return. */
  lemma {:induction false} FileLoopWrites(paths: seq<string>, n: nat, text: string, tag: string, openOk: nat -> bool, writeOk: nat -> bool, fatal: Color)
    requires n <= |paths| && forall k :: 0 <= k < n ==> openOk(k)
    ensures Keep(FileEffects(paths, n, text, tag, openOk, writeOk, fatal), WriteKind) == Writes(paths, n, text)
    decreases n
  {
    if n > 0 {
      FileWritesStep(paths, n, text, tag, openOk, writeOk, fatal);
      FileLoopWrites(paths, n - 1, text, tag, openOk, writeOk, fatal);
      assert Writes(paths, n, text) == Writes(paths, n - 1, text) + [FileWrite(paths[n - 1], Newline(text))];
    }
  }

  /** Every write the file loop makes is the same line and its newline. */
  lemma {:induction false} FileLoopData(paths: seq<string>, n: nat, text: string, tag: string, openOk: nat -> bool, writeOk: nat -> bool, fatal: Color)
    requires n <= |paths|
    ensures WritesCarry(FileEffects(paths, n, text, tag, openOk, writeOk, fatal), Newline(text))
    decreases n
  {
    if n > 0 {
      var f0 := FileEffects(paths, n - 1, text, tag, openOk, writeOk, fatal);
      var item := FileItem(paths[n - 1], text, tag, openOk(n - 1), writeOk(n - 1), fatal);
      FileLoopData(paths, n - 1, text, tag, openOk, writeOk, fatal);
      FileItemWrites(paths[n - 1], text, tag, openOk(n - 1), writeOk(n - 1), fatal);
      var f := f0 + item;
      assert FileEffects(paths, n, text, tag, openOk, writeOk, fatal) == f;
      forall j | 0 <= j < |f| && f[j].FileWrite? ensures f[j].data == Newline(text) {
        if j >= |f0| {
          var e := item[j - |f0|];
          assert f[j] == e;
          assert e.FileWrite?;
          assert 0 <= j - |f0| < |item| && item[j - |f0|].FileWrite?;
          assert e.data == Newline(text);
        } else {
          var e := f0[j];
          assert f[j] == e;
          assert e.FileWrite?;
          assert e.data == Newline(text);
        }
      }
    }
  }

  /** The kinds of effect the file loop makes. */
  predicate FileKind(k: Kind) {
    k == WriteKind || k == OpenFailureKind || k == WriteFailureKind
  }

  /** Every effect of es is one the file loop makes. */
  predicate FileOnly(es: seq<Effect>) {
    forall j :: 0 <= j < |es| ==> FileKind(KindOf(es[j]))
  }

  /** The file loop makes only writes and file diagnostics. */
  lemma {:induction false} FileLoopOnly(paths: seq<string>, n: nat, text: string, tag: string, openOk: nat -> bool, writeOk: nat -> bool, fatal: Color)
    requires n <= |paths|
    ensures FileOnly(FileEffects(paths, n, text, tag, openOk, writeOk, fatal))
    decreases n
  {
    if n > 0 {
      var f0 := FileEffects(paths, n - 1, text, tag, openOk, writeOk, fatal);
      var item := FileItem(paths[n - 1], text, tag, openOk(n - 1), writeOk(n - 1), fatal);
      var f := f0 + item;
      assert FileEffects(paths, n, text, tag, openOk, writeOk, fatal) == f;
      FileLoopOnly(paths, n - 1, text, tag, openOk, writeOk, fatal);
      assert FileOnly(item);
      forall j | 0 <= j < |f| ensures FileKind(KindOf(f[j])) {
        if j < |f0| { assert f[j] == f0[j]; } else { assert f[j] == item[j - |f0|]; }
      }
    }
  }

  /** A kind absent from es is kept nowhere. */
  lemma {:induction false} KeepAbsent(es: seq<Effect>, k: Kind)
    requires forall j :: 0 <= j < |es| ==> KindOf(es[j]) != k
    ensures Keep(es, k) == []
    decreases |es|
  {
    if es != [] {
      assert forall j :: 0 <= j < |es[1..]| ==> es[1..][j] == es[j + 1];
      KeepAbsent(es[1..], k);
    }
  }

  /** The file loop prints no line, sends nothing and reports no request
      failure. */
  lemma FileLoopQuiet(paths: seq<string>, n: nat, text: string, tag: string, openOk: nat -> bool, writeOk: nat -> bool, fatal: Color, k: Kind)
    requires n <= |paths| && !FileKind(k)
    ensures Keep(FileEffects(paths, n, text, tag, openOk, writeOk, fatal), k) == []
  {
    var f := FileEffects(paths, n, text, tag, openOk, writeOk, fatal);
    FileLoopOnly(paths, n, text, tag, openOk, writeOk, fatal);
    KeepAbsent(f, k);
  }

  /** The file loop consults only the open and write outcomes. */
  lemma {:induction false} FileLoopIgnoresSends(paths: seq<string>, n: nat, text: string, tag: string, open1: nat -> bool, write1: nat -> bool, open2: nat -> bool, write2: nat -> bool, fatal: Color)
    requires n <= |paths|
    requires forall k :: open1(k) == open2(k) && write1(k) == write2(k)
    ensures FileEffects(paths, n, text, tag, open1, write1, fatal) == FileEffects(paths, n, text, tag, open2, write2, fatal)
    decreases n
  {
    if n > 0 {
      FileLoopIgnoresSends(paths, n - 1, text, tag, open1, write1, open2, write2, fatal);
      assert open1(n - 1) == open2(n - 1) && write1(n - 1) == write2(n - 1);
    }
  }

  /** The writes the first n files receive: one write of the line and its
      newline for each file that opens, in list order, and none for a file
      that does not. */
  function OpenedWrites(paths: seq<string>, n: nat, text: string, openOk: nat -> bool): seq<Effect>
    requires n <= |paths|
  {
    if n == 0 then []
    else OpenedWrites(paths, n - 1, text, openOk) + (if openOk(n - 1) then [FileWrite(paths[n - 1], Newline(text))] else [])
  }

  /** Number of positions below n whose file opens but whose write fails. */
  function WriteFailures(openOk: nat -> bool, writeOk: nat -> bool, n: nat): nat {
    if n == 0 then 0 else WriteFailures(openOk, writeOk, n - 1) + (if openOk(n - 1) && !writeOk(n - 1) then 1 else 0)
  }

  /** One write per file that opens: n writes less the failed opens. */
  lemma {:induction false} OpenedWritesCount(paths: seq<string>, n: nat, text: string, openOk: nat -> bool)
    requires n <= |paths|
    ensures Failures(openOk, n) <= n
    ensures |OpenedWrites(paths, n, text, openOk)| == n - Failures(openOk, n)
    decreases n
  {
    if n > 0 {
      OpenedWritesCount(paths, n - 1, text, openOk);
    }
  }

  /** One file's effects: a write exactly when it opens, one open diagnostic
      exactly when it does not, and one write diagnostic exactly when it opens
      and the write fails. */
  lemma FileItemKinds(path: string, text: string, tag: string, openOk: bool, writeOk: bool, fatal: Color)
    ensures var item := FileItem(path, text, tag, openOk, writeOk, fatal);
      Keep(item, WriteKind) == (if openOk then [FileWrite(path, Newline(text))] else []) &&
      |Keep(item, OpenFailureKind)| == (if openOk then 0 else 1) &&
      |Keep(item, WriteFailureKind)| == (if openOk && !writeOk then 1 else 0)
  {
    if !openOk {
      var d := Diagnostic(OpenFailed(path, tag, text), fatal);
      KeepSingleton(d, WriteKind);
      KeepSingleton(d, OpenFailureKind);
      KeepSingleton(d, WriteFailureKind);
    } else {
      var w := FileWrite(path, Newline(text));
      KeepSingleton(w, WriteKind);
      KeepSingleton(w, OpenFailureKind);
      KeepSingleton(w, WriteFailureKind);
      if !writeOk {
        var d := Diagnostic(WriteFailed(tag, text), fatal);
        assert [w, d] == [w] + [d];
        KeepSingleton(d, WriteKind);
        KeepSingleton(d, OpenFailureKind);
        KeepSingleton(d, WriteFailureKind);
        KeepConcat([w], [d], WriteKind);
        KeepCount([w], [d], OpenFailureKind);
        KeepCount([w], [d], WriteFailureKind);
      }
    }
  }

  /** What the file loop does when a sink fails: a file that does not open
      receives no write and is reported once; a file that opens receives the
      line; a failed write is reported once. */
  lemma {:induction false} FileLoopFailures(paths: seq<string>, n: nat, text: string, tag: string, openOk: nat -> bool, writeOk: nat -> bool, fatal: Color)
    requires n <= |paths|
    ensures var f := FileEffects(paths, n, text, tag, openOk, writeOk, fatal);
      Keep(f, WriteKind) == OpenedWrites(paths, n, text, openOk) &&
      |Keep(f, OpenFailureKind)| == Failures(openOk, n) &&
      |Keep(f, WriteFailureKind)| == WriteFailures(openOk, writeOk, n)
    decreases n
  {
    if n > 0 {
      var f0 := FileEffects(paths, n - 1, text, tag, openOk, writeOk, fatal);
      var item := FileItem(paths[n - 1], text, tag, openOk(n - 1), writeOk(n - 1), fatal);
      assert FileEffects(paths, n, text, tag, openOk, writeOk, fatal) == f0 + item;
      FileLoopFailures(paths, n - 1, text, tag, openOk, writeOk, fatal);
      FileItemKinds(paths[n - 1], text, tag, openOk(n - 1), writeOk(n - 1), fatal);
      KeepConcat(f0, item, WriteKind);
      KeepCount(f0, item, OpenFailureKind);
      KeepCount(f0, item, WriteFailureKind);
    }
  }

  /** Every diagnostic among es is printed in color c. */
  predicate DiagnosticsIn(es: seq<Effect>, c: Color) {
    forall j :: 0 <= j < |es| && es[j].Diagnostic? ==> es[j].color == c
  }

  lemma DiagnosticsConcat(a: seq<Effect>, b: seq<Effect>, c: Color)
    requires DiagnosticsIn(a, c) && DiagnosticsIn(b, c)
    ensures DiagnosticsIn(a + b, c)
  {
    forall j | 0 <= j < |a + b| && (a + b)[j].Diagnostic? ensures (a + b)[j].color == c {
      if j < |a| { assert (a + b)[j] == a[j]; } else { assert (a + b)[j] == b[j - |a|]; }
    }
  }

  /** The webhook loop prints each diagnostic in the color it is given. */
  lemma {:induction false} WebLoopColor(hooks: seq<Webhook>, n: nat, text: string, tag: string, sendOk: nat -> bool, fatal: Color)
    requires n <= |hooks|
    ensures DiagnosticsIn(WebEffects(hooks, n, text, tag, sendOk, fatal), fatal)
    decreases n
  {
    if n > 0 {
      var w0 := WebEffects(hooks, n - 1, text, tag, sendOk, fatal);
      var item := WebItem(hooks[n - 1], text, tag, sendOk(n - 1), fatal);
      assert WebEffects(hooks, n, text, tag, sendOk, fatal) == w0 + item;
      WebLoopColor(hooks, n - 1, text, tag, sendOk, fatal);
      DiagnosticsConcat(w0, item, fatal);
    }
  }

  /** The file loop prints each diagnostic in the color it is given. */
  lemma {:induction false} FileLoopColor(paths: seq<string>, n: nat, text: string, tag: string, openOk: nat -> bool, writeOk: nat -> bool, fatal: Color)
    requires n <= |paths|
    ensures DiagnosticsIn(FileEffects(paths, n, text, tag, openOk, writeOk, fatal), fatal)
    decreases n
  {
    if n > 0 {
      var f0 := FileEffects(paths, n - 1, text, tag, openOk, writeOk, fatal);
      var item := FileItem(paths[n - 1], text, tag, openOk(n - 1), writeOk(n - 1), fatal);
      assert FileEffects(paths, n, text, tag, openOk, writeOk, fatal) == f0 + item;
      FileLoopColor(paths, n - 1, text, tag, openOk, writeOk, fatal);
      DiagnosticsConcat(f0, item, fatal);
    }
  }

  /** Kinds the webhook loop never makes are absent from it. */
  lemma WebLoopSilent(hooks: seq<Webhook>, n: nat, text: string, tag: string, sendOk: nat -> bool, fatal: Color, k: Kind)
    requires n <= |hooks| && !WebKind(k)
    ensures Keep(WebEffects(hooks, n, text, tag, sendOk, fatal), k) == []
  {
    WebLoopOnly(hooks, n, text, tag, sendOk, fatal);
    KeepAbsent(WebEffects(hooks, n, text, tag, sendOk, fatal), k);
  }

  /** The three phases of a dispatch with the lock held: console, webhooks,
      files. */
  lemma ExpectedPhases(t: Table, ev: Event, or: Oracles)
    requires WellFormed(t)
    ensures var i := Slot(ev.tag); var text := Line(t, ev);
      Expected(Locked(t), ev, or) ==
        ConsoleEffects(t.console[i], text, t.color[i]) +
        WebEffects(t.web[i], |t.web[i]|, text, ev.tag, or.sendOk, t.color[3]) +
        FileEffects(t.file[i], |t.file[i]|, text, ev.tag, or.openOk, or.writeOk, t.color[3])
  {
  }

  /** Picking effects out of the three phases picks them out of each. */
  lemma KeepPhases(c: seq<Effect>, w: seq<Effect>, f: seq<Effect>, k: Kind)
    ensures Keep(c + w + f, k) == Keep(c, k) + Keep(w, k) + Keep(f, k)
    ensures Targets(c + w + f) == Targets(c) + Targets(w) + Targets(f)
  {
    KeepConcat(c + w, f, k);
    KeepConcat(c, w, k);
    TargetsConcat(c + w, f);
    TargetsConcat(c, w);
  }

  /** Every FileWrite among the effects of kind WriteKind, in order. */
  lemma KeepWritesAreWrites(f: seq<Effect>, text: string)
    requires WritesCarry(f, Newline(text))
    ensures forall j :: 0 <= j < |Keep(f, WriteKind)| ==>
      Keep(f, WriteKind)[j].FileWrite? && Keep(f, WriteKind)[j].data == Newline(text)
    decreases |f|
  {
    if f != [] {
      KeepWritesAreWrites(f[1..], text);
    }
  }

  /** The console prints exactly one line, the rendered one in the severity's
      color, when its target is on, and none when it is off. */
  lemma ConsoleGate(t: Table, ev: Event, or: Oracles)
    requires WellFormed(t)
    ensures var i := Slot(ev.tag);
      Keep(Expected(Locked(t), ev, or), ConsoleKind) ==
        if t.console[i] != NoConsole then [ConsoleLine(Line(t, ev), t.color[i])] else []
  {
    var i := Slot(ev.tag);
    var text := Line(t, ev);
    var c := ConsoleEffects(t.console[i], text, t.color[i]);
    var w := WebEffects(t.web[i], |t.web[i]|, text, ev.tag, or.sendOk, t.color[3]);
    var f := FileEffects(t.file[i], |t.file[i]|, text, ev.tag, or.openOk, or.writeOk, t.color[3]);
    ExpectedPhases(t, ev, or);
    KeepPhases(c, w, f, ConsoleKind);
    WebLoopQuiet(t.web[i], |t.web[i]|, text, ev.tag, or.sendOk, t.color[3]);
    FileLoopQuiet(t.file[i], |t.file[i]|, text, ev.tag, or.openOk, or.writeOk, t.color[3], ConsoleKind);
    if t.console[i] != NoConsole { KeepSingleton(ConsoleLine(text, t.color[i]), ConsoleKind); }
  }

  /** Every webhook of the severity is sent, in list order, with its format's
      "{}" replaced by the rendered line, whatever any send returns. */
  lemma WebhooksInOrder(t: Table, ev: Event, or: Oracles)
    requires WellFormed(t)
    ensures var hooks := t.web[Slot(ev.tag)];
      Keep(Expected(Locked(t), ev, or), SendKind) == Sends(hooks, |hooks|, Line(t, ev))
  {
    var i := Slot(ev.tag);
    var text := Line(t, ev);
    var c := ConsoleEffects(t.console[i], text, t.color[i]);
    var w := WebEffects(t.web[i], |t.web[i]|, text, ev.tag, or.sendOk, t.color[3]);
    var f := FileEffects(t.file[i], |t.file[i]|, text, ev.tag, or.openOk, or.writeOk, t.color[3]);
    ExpectedPhases(t, ev, or);
    KeepPhases(c, w, f, SendKind);
    WebLoopSends(t.web[i], |t.web[i]|, text, ev.tag, or.sendOk, t.color[3]);
    FileLoopQuiet(t.file[i], |t.file[i]|, text, ev.tag, or.openOk, or.writeOk, t.color[3], SendKind);
    if t.console[i] != NoConsole { KeepSingleton(ConsoleLine(text, t.color[i]), SendKind); }
  }

  /** Each failed send is reported by exactly one diagnostic. */
  lemma WebhookFailuresReported(t: Table, ev: Event, or: Oracles)
    requires WellFormed(t)
    ensures |Keep(Expected(Locked(t), ev, or), RequestFailureKind)| == Failures(or.sendOk, |t.web[Slot(ev.tag)]|)
  {
    var i := Slot(ev.tag);
    var text := Line(t, ev);
    var c := ConsoleEffects(t.console[i], text, t.color[i]);
    var w := WebEffects(t.web[i], |t.web[i]|, text, ev.tag, or.sendOk, t.color[3]);
    var f := FileEffects(t.file[i], |t.file[i]|, text, ev.tag, or.openOk, or.writeOk, t.color[3]);
    ExpectedPhases(t, ev, or);
    KeepPhases(c, w, f, RequestFailureKind);
    WebLoopFailures(t.web[i], |t.web[i]|, text, ev.tag, or.sendOk, t.color[3]);
    FileLoopQuiet(t.file[i], |t.file[i]|, text, ev.tag, or.openOk, or.writeOk, t.color[3], RequestFailureKind);
    if t.console[i] != NoConsole { KeepSingleton(ConsoleLine(text, t.color[i]), RequestFailureKind); }
    assert Keep(c, RequestFailureKind) == [] && Keep(f, RequestFailureKind) == [];
    assert Keep(c + w + f, RequestFailureKind) == Keep(w, RequestFailureKind);
  }

  /** Every file path of the severity is acted on, in list order, whatever
      opening or writing any file returns, and every write is the rendered
      line followed by a newline. */
  lemma FilesInOrder(t: Table, ev: Event, or: Oracles)
    requires WellFormed(t)
    ensures Targets(Expected(Locked(t), ev, or)) == t.file[Slot(ev.tag)]
    ensures var writes := Keep(Expected(Locked(t), ev, or), WriteKind);
      forall j :: 0 <= j < |writes| ==> writes[j].FileWrite? && writes[j].data == Newline(Line(t, ev))
  {
    var i := Slot(ev.tag);
    var text := Line(t, ev);
    var c := ConsoleEffects(t.console[i], text, t.color[i]);
    var w := WebEffects(t.web[i], |t.web[i]|, text, ev.tag, or.sendOk, t.color[3]);
    var f := FileEffects(t.file[i], |t.file[i]|, text, ev.tag, or.openOk, or.writeOk, t.color[3]);
    ExpectedPhases(t, ev, or);
    KeepPhases(c, w, f, WriteKind);
    WebLoopQuiet(t.web[i], |t.web[i]|, text, ev.tag, or.sendOk, t.color[3]);
    FileLoopTargets(t.file[i], |t.file[i]|, text, ev.tag, or.openOk, or.writeOk, t.color[3]);
    FileLoopData(t.file[i], |t.file[i]|, text, ev.tag, or.openOk, or.writeOk, t.color[3]);
    KeepWritesAreWrites(f, text);
    if t.console[i] != NoConsole { KeepSingleton(ConsoleLine(text, t.color[i]), WriteKind); }
    assert t.file[i][..|t.file[i]|] == t.file[i];
  }

  /** What the file loop writes, when opening and writing behave the same. */
  lemma FileWritesOnlyFromFileOracles(t: Table, ev: Event, or1: Oracles, or2: Oracles)
    requires WellFormed(t)
    requires forall k :: or1.openOk(k) == or2.openOk(k) && or1.writeOk(k) == or2.writeOk(k)
    ensures Keep(Expected(Locked(t), ev, or1), WriteKind) == Keep(Expected(Locked(t), ev, or2), WriteKind)
  {
    var i := Slot(ev.tag);
    var text := Line(t, ev);
    var c := ConsoleEffects(t.console[i], text, t.color[i]);
    var w1 := WebEffects(t.web[i], |t.web[i]|, text, ev.tag, or1.sendOk, t.color[3]);
    var w2 := WebEffects(t.web[i], |t.web[i]|, text, ev.tag, or2.sendOk, t.color[3]);
    var f1 := FileEffects(t.file[i], |t.file[i]|, text, ev.tag, or1.openOk, or1.writeOk, t.color[3]);
    var f2 := FileEffects(t.file[i], |t.file[i]|, text, ev.tag, or2.openOk, or2.writeOk, t.color[3]);
    ExpectedPhases(t, ev, or1);
    ExpectedPhases(t, ev, or2);
    KeepPhases(c, w1, f1, WriteKind);
    KeepPhases(c, w2, f2, WriteKind);
    WebLoopQuiet(t.web[i], |t.web[i]|, text, ev.tag, or1.sendOk, t.color[3]);
    WebLoopQuiet(t.web[i], |t.web[i]|, text, ev.tag, or2.sendOk, t.color[3]);
    FileLoopIgnoresSends(t.file[i], |t.file[i]|, text, ev.tag, or1.openOk, or1.writeOk, or2.openOk, or2.writeOk, t.color[3]);
  }

  /** When every file of the severity opens, each receives the line once, in
      list order, whatever the writes return. */
  lemma FilesAllOpen(t: Table, ev: Event, or: Oracles)
    requires WellFormed(t)
    requires forall k :: 0 <= k < |t.file[Slot(ev.tag)]| ==> or.openOk(k)
    ensures var files := t.file[Slot(ev.tag)];
      Keep(Expected(Locked(t), ev, or), WriteKind) == Writes(files, |files|, Line(t, ev))
  {
    var i := Slot(ev.tag);
    var text := Line(t, ev);
    var c := ConsoleEffects(t.console[i], text, t.color[i]);
    var w := WebEffects(t.web[i], |t.web[i]|, text, ev.tag, or.sendOk, t.color[3]);
    var f := FileEffects(t.file[i], |t.file[i]|, text, ev.tag, or.openOk, or.writeOk, t.color[3]);
    ExpectedPhases(t, ev, or);
    KeepPhases(c, w, f, WriteKind);
    WebLoopQuiet(t.web[i], |t.web[i]|, text, ev.tag, or.sendOk, t.color[3]);
    FileLoopWrites(t.file[i], |t.file[i]|, text, ev.tag, or.openOk, or.writeOk, t.color[3]);
    if t.console[i] != NoConsole { KeepSingleton(ConsoleLine(text, t.color[i]), WriteKind); }
  }

  /** A file that does not open receives no write and is reported once; a
      file that opens receives the line; each failed write is reported once.
      So does every full dispatch, whatever the webhooks do. */
  lemma FileFailuresReported(t: Table, ev: Event, or: Oracles)
    requires WellFormed(t)
    ensures var files := t.file[Slot(ev.tag)]; var e := Expected(Locked(t), ev, or);
      Keep(e, WriteKind) == OpenedWrites(files, |files|, Line(t, ev), or.openOk) &&
      |Keep(e, OpenFailureKind)| == Failures(or.openOk, |files|) &&
      |Keep(e, WriteFailureKind)| == WriteFailures(or.openOk, or.writeOk, |files|)
  {
    var i := Slot(ev.tag);
    var text := Line(t, ev);
    var c := ConsoleEffects(t.console[i], text, t.color[i]);
    var w := WebEffects(t.web[i], |t.web[i]|, text, ev.tag, or.sendOk, t.color[3]);
    var f := FileEffects(t.file[i], |t.file[i]|, text, ev.tag, or.openOk, or.writeOk, t.color[3]);
    ExpectedPhases(t, ev, or);
    KeepPhases(c, w, f, WriteKind);
    KeepPhases(c, w, f, OpenFailureKind);
    KeepPhases(c, w, f, WriteFailureKind);
    WebLoopSilent(t.web[i], |t.web[i]|, text, ev.tag, or.sendOk, t.color[3], WriteKind);
    WebLoopSilent(t.web[i], |t.web[i]|, text, ev.tag, or.sendOk, t.color[3], OpenFailureKind);
    WebLoopSilent(t.web[i], |t.web[i]|, text, ev.tag, or.sendOk, t.color[3], WriteFailureKind);
    FileLoopFailures(t.file[i], |t.file[i]|, text, ev.tag, or.openOk, or.writeOk, t.color[3]);
    if t.console[i] != NoConsole {
      var line := ConsoleLine(text, t.color[i]);
      KeepSingleton(line, WriteKind);
      KeepSingleton(line, OpenFailureKind);
      KeepSingleton(line, WriteFailureKind);
    }
  }

  /** Every failure a dispatch reports is printed in the Fatal color. */
  lemma DiagnosticsInFatalColor(t: Table, ev: Event, or: Oracles)
    requires WellFormed(t)
    ensures DiagnosticsIn(Expected(Locked(t), ev, or), t.color[3])
  {
    var i := Slot(ev.tag);
    var text := Line(t, ev);
    var c := ConsoleEffects(t.console[i], text, t.color[i]);
    var w := WebEffects(t.web[i], |t.web[i]|, text, ev.tag, or.sendOk, t.color[3]);
    var f := FileEffects(t.file[i], |t.file[i]|, text, ev.tag, or.openOk, or.writeOk, t.color[3]);
    ExpectedPhases(t, ev, or);
    WebLoopColor(t.web[i], |t.web[i]|, text, ev.tag, or.sendOk, t.color[3]);
    FileLoopColor(t.file[i], |t.file[i]|, text, ev.tag, or.openOk, or.writeOk, t.color[3]);
    DiagnosticsConcat(c, w, t.color[3]);
    DiagnosticsConcat(c + w, f, t.color[3]);
  }

  /** Failure isolation: which webhooks are sent and which files are acted on
      does not depend on any sink's outcome, and what is written to the files
      does not depend on the webhooks' outcomes. */
  lemma SinkIsolation(t: Table, ev: Event, or1: Oracles, or2: Oracles)
    requires WellFormed(t)
    ensures Keep(Expected(Locked(t), ev, or1), SendKind) == Keep(Expected(Locked(t), ev, or2), SendKind)
    ensures Targets(Expected(Locked(t), ev, or1)) == Targets(Expected(Locked(t), ev, or2))
    ensures (forall k :: or1.openOk(k) == or2.openOk(k) && or1.writeOk(k) == or2.writeOk(k)) ==>
      Keep(Expected(Locked(t), ev, or1), WriteKind) == Keep(Expected(Locked(t), ev, or2), WriteKind)
  {
    WebhooksInOrder(t, ev, or1);
    WebhooksInOrder(t, ev, or2);
    FilesInOrder(t, ev, or1);
    FilesInOrder(t, ev, or2);
    if forall k :: or1.openOk(k) == or2.openOk(k) && or1.writeOk(k) == or2.writeOk(k) {
      FileWritesOnlyFromFileOracles(t, ev, or1, or2);
    }
  }

  /** With no webhook and no file for the severity, the console line (when
      enabled) is the only effect. */
  lemma NoSinksOnlyConsole(t: Table, ev: Event, or: Oracles)
    requires WellFormed(t) && t.web[Slot(ev.tag)] == [] && t.file[Slot(ev.tag)] == []
    ensures Expected(Locked(t), ev, or) ==
      if t.console[Slot(ev.tag)] != NoConsole then [ConsoleLine(Line(t, ev), t.color[Slot(ev.tag)])] else []
  {
    ExpectedPhases(t, ev, or);
  }

  /** When the lock cannot be taken, exactly one fallback line is printed,
      stamped as a UTC-mode line would be but without any suffix, and no sink
      is touched. */
  lemma LockFailureFallback(ev: Event, or: Oracles)
    ensures Expected(Poisoned, ev, or) == [LockFallback(ev.tag, FallbackText(ev))]
    ensures FallbackText(ev) == TimePrefix(UTC, ev.clocks) + " " + ev.message
    ensures Keep(Expected(Poisoned, ev, or), SendKind) == [] && Keep(Expected(Poisoned, ev, or), WriteKind) == []
    ensures Targets(Expected(Poisoned, ev, or)) == []
  {
    var es := Expected(Poisoned, ev, or);
    assert es[1..] == [];
  }

  /** The rendered line is the bracketed time of the configured clock, a space,
      the message verbatim, and the backtrace suffix, so each part can be read
      back from its position. */
  lemma LineLayout(t: Table, ev: Event)
    requires WellFormed(t)
    ensures var ts := if t.time == UTC then ev.clocks.utc else ev.clocks.local;
      var p := "[" + ts + "]"; var m := ev.message; var line := Line(t, ev);
      var sfx := Suffix(t.backtrace[Slot(ev.tag)], ev.site, ev.trace);
      |line| == |p| + 1 + |m| + |sfx| &&
      line[..|p|] == p && line[|p|] == ' ' && line[|p| + 1..|p| + 1 + |m|] == m &&
      line[|p| + 1 + |m|..] == sfx
  {
    var ts := if t.time == UTC then ev.clocks.utc else ev.clocks.local;
    var p := "[" + ts + "]";
    var sfx := Suffix(t.backtrace[Slot(ev.tag)], ev.site, ev.trace);
    var line := Line(t, ev);
    assert line == p + " " + ev.message + sfx;
    assert line[..|p|] == p;
    assert line[|p| + 1..|p| + 1 + |ev.message|] == ev.message;
    assert line[|p| + 1 + |ev.message|..] == sfx;
  }

  /** The Simple suffix carries the call site's line and column as digit
      strings that read back as those numbers. */
  lemma SuffixShapes(site: Location, trace: string)
    ensures var a := Decimal(site.line); var b := Decimal(site.column);
      Suffix(Simple, site, trace) == " (" + site.file + ":" + a + ":" + b + ")" &&
      IsDigits(a) && DigitsValue(a) == site.line && IsDigits(b) && DigitsValue(b) == site.column
  {
    DecimalRoundTrip(site.line);
    DecimalRoundTrip(site.column);
  }

  /** Each entry macro's tag selects its own severity's settings; any tag that
      is not "info", "warn" or "error" selects Fatal's. */
  lemma TagRouting(l: Log, tag: string)
    requires l != Unset
    ensures Route(Tag(l)) == l && Slot(Tag(l)) == Index(l, "").value
    ensures tag != "info" && tag != "warn" && tag != "error" ==> Slot(tag) == 3
  {
  }

  /** The line `error!("disk full")` renders to under the defaults: local
      time, the message, and the call site. */
  lemma DefaultErrorLine(clocks: Clocks, site: Location, trace: string)
    ensures Line(Default(), Event("error", "disk full", clocks, site, trace)) ==
      "[" + clocks.local + "] disk full" + (" (" + site.file + ":" + Decimal(site.line) + ":" + Decimal(site.column) + ")")
  {
    var ev := Event("error", "disk full", clocks, site, trace);
    var d := Default();
    assert Slot("error") == 2 && d.backtrace[2] == Simple && d.time == Local;
    var ts := "[" + clocks.local;
    assert ts + "]" + " " + "disk full" == ts + "] disk full" by {
      assert ts + "]" + " " == ts + "] ";
      assert ts + "] " + "disk full" == ts + "] disk full";
    }
  }

  /** Default configuration, `error!("disk full")`: one console line, in the
      Error color; nothing else. */
  lemma DefaultErrorDiskFull(clocks: Clocks, site: Location, trace: string, or: Oracles)
    ensures Expected(Locked(Default()), Event("error", "disk full", clocks, site, trace), or) ==
      [ConsoleLine("[" + clocks.local + "] disk full" +
                   (" (" + site.file + ":" + Decimal(site.line) + ":" + Decimal(site.column) + ")"), TrueColor(255, 100, 0))]
  {
    var ev := Event("error", "disk full", clocks, site, trace);
    assert Slot("error") == 2;
    DefaultErrorLine(clocks, site, trace);
    NoSinksOnlyConsole(Default(), ev, or);
  }

  /** A severity with two files, both opening, writes the line to the first
      and then to the second. */
  lemma TwoFilesWrites(t: Table, ev: Event, or: Oracles, a: string, b: string)
    requires WellFormed(t) && t.file[Slot(ev.tag)] == [a, b]
    requires or.openOk(0) && or.openOk(1)
    ensures Keep(Expected(Locked(t), ev, or), WriteKind) ==
      [FileWrite(a, Newline(Line(t, ev))), FileWrite(b, Newline(Line(t, ev)))]
  {
    FilesAllOpen(t, ev, or);
  }

  /** The file example, end to end: after its builder chain, any event whose
      two files open writes the line to the severity's own file and then to
      "all.txt". */
  lemma FileExampleWrites(ev: Event, or: Oracles)
    requires or.openOk(0) && or.openOk(1)
    ensures Run(Default(), FileExampleChain()).Ok?
    ensures var t := Run(Default(), FileExampleChain()).value;
      var own := ["info.txt", "warn.txt", "error.txt", "fatal.txt"][Slot(ev.tag)];
      Keep(Expected(Locked(t), ev, or), WriteKind) ==
        [FileWrite(own, Newline(Line(t, ev))), FileWrite("all.txt", Newline(Line(t, ev)))]
  {
    FileExampleTable();
    var t := Run(Default(), FileExampleChain()).value;
    var own := ["info.txt", "warn.txt", "error.txt", "fatal.txt"][Slot(ev.tag)];
    assert t.file[Slot(ev.tag)] == [own, "all.txt"];
    TwoFilesWrites(t, ev, or, own, "all.txt");
  }

  /** The Info webhook format of the web example: the line lands between the
      quotes of "Body", and the rest of the format is kept. */
  lemma WebExampleBody(text: string)
    ensures Substitute("{\"Type\":\"Info\",\"Body\":\"{}\"}", text) ==
      "{\"Type\":\"Info\",\"Body\":\"" + text + "\"}"
  {
    var a := "{\"Type\":\"Info\",\"Body\":\"";
    var b := "\"}";
    assert forall k :: 0 <= k < |a| ==> a[k] != '}';
    assert forall k :: 0 <= k < |b| - 1 ==> b[k] != '{';
    assert "{\"Type\":\"Info\",\"Body\":\"{}\"}" == a + "{}" + b;
    SubstituteFirst(a, b, text);
    NoPlaceholderUnchanged(b, text);
  }
}
