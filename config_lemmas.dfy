/** Properties of the configuration builder, stated on its value-level
    mirror Apply/Run, which the methods of `LogConfig.Config` are proved
    to follow. */
module ConfigLemmas {
  import opened LogConfig

  /** Index and SeverityAt are inverse: the four severities occupy the four
      slots, one each. */
  lemma IndexRoundTrip(l: Log, msg: string, i: nat)
    requires i < 4
    ensures Index(SeverityAt(i), msg) == Ok(i)
    ensures l != Unset ==> SeverityAt(Index(l, msg).value) == l
  {
  }

  /** The slot of each severity, as the comment on `Config` lists it. */
  lemma IndexSlots(msg: string)
    ensures Index(Info, msg) == Ok(0) && Index(Warn, msg) == Ok(1)
    ensures Index(Error, msg) == Ok(2) && Index(Fatal, msg) == Ok(3)
    ensures Index(Unset, msg) == Err(msg)
  {
  }

  /** With no severity selected, every per-severity setter fails with its own
      message. */
  lemma UnselectedSetterFails(t: Table, op: Op)
    requires WellFormed(t) && t.workingOn == Unset && op.PerSeverity()
    ensures Apply(t, op) == Err(op.UnselectedMsg())
  {
  }

  /** A fresh `new()` table has nothing selected, so every per-severity setter
      fails on it. */
  lemma FreshConfigRejectsSetters(op: Op)
    requires op.PerSeverity()
    ensures Apply(Default(), op).Err?
    ensures Apply(Default(), op).error == op.UnselectedMsg()
  {
    UnselectedSetterFails(Default(), op);
  }

  /** `set_type` fails exactly on the sentinel; otherwise it changes the
      selection and nothing else. */
  lemma SelectTypeOnlySelects(t: Table, l: Log)
    requires WellFormed(t)
    ensures Apply(t, SelectType(l)).Err? <==> l == Unset
    ensures l == Unset ==> Apply(t, SelectType(l)).error == SetNoneMsg
    ensures l != Unset ==> var r := Apply(t, SelectType(l)).value;
      r.workingOn == l && r.time == t.time && r.color == t.color && r.console == t.console &&
      r.backtrace == t.backtrace && r.web == t.web && r.file == t.file
  {
  }

  /** `time` never fails and changes nothing but the time mode, whatever is
      selected. */
  lemma TimeOnlySetsTime(t: Table, m: Time)
    requires WellFormed(t)
    ensures Apply(t, WithTime(m)).Ok?
    ensures var r := Apply(t, WithTime(m)).value;
      r.time == m && r.workingOn == t.workingOn && r.color == t.color && r.console == t.console &&
      r.backtrace == t.backtrace && r.web == t.web && r.file == t.file
  {
  }

  /** With a severity selected, `color`, `backtrace` and `console` succeed and
      overwrite exactly the selected slot of their own array. */
  lemma OverwriteOnlySelectedSlot(t: Table, op: Op)
    requires WellFormed(t) && t.workingOn != Unset
    requires op.WithColor? || op.WithBacktrace? || op.WithConsole?
    ensures Apply(t, op).Ok?
    ensures var r := Apply(t, op).value; var i := Index(t.workingOn, "").value;
      r.time == t.time && r.workingOn == t.workingOn && r.web == t.web && r.file == t.file &&
      (op.WithColor? ==> r.color[i] == op.color && r.console == t.console && r.backtrace == t.backtrace) &&
      (op.WithBacktrace? ==> r.backtrace[i] == op.policy && r.color == t.color && r.console == t.console) &&
      (op.WithConsole? ==> r.console[i] == op.target && r.color == t.color && r.backtrace == t.backtrace) &&
      (forall j :: 0 <= j < 4 && j != i ==>
        r.color[j] == t.color[j] && r.console[j] == t.console[j] && r.backtrace[j] == t.backtrace[j])
  {
  }

  /** With a severity selected, `web` and `file` succeed and append one entry to
      the end of the selected slot's list, keeping the earlier entries in
      order; other slots are untouched. */
  lemma AppendOnlySelectedSlot(t: Table, op: Op)
    requires WellFormed(t) && t.workingOn != Unset
    requires op.PushWeb? || op.PushFile?
    ensures Apply(t, op).Ok?
    ensures var r := Apply(t, op).value; var i := Index(t.workingOn, "").value;
      r.time == t.time && r.workingOn == t.workingOn && r.color == t.color &&
      r.console == t.console && r.backtrace == t.backtrace &&
      (op.PushWeb? ==> r.web[i] == t.web[i] + [Webhook(op.request, op.format)] && r.file == t.file) &&
      (op.PushFile? ==> r.file[i] == t.file[i] + [op.path] && r.web == t.web) &&
      (forall j :: 0 <= j < 4 && j != i ==> r.web[j] == t.web[j] && r.file[j] == t.file[j])
  {
  }

  /** One `file` call per path. */
  function PushFiles(paths: seq<string>): (ops: seq<Op>)
    ensures |ops| == |paths|
  {
    seq(|paths|, k requires 0 <= k < |paths| => PushFile(paths[k]))
  }

  /** Successive `file` calls add their paths to the selected slot in call
      order. */
  lemma {:induction false} FilesAccumulate(t: Table, paths: seq<string>)
    requires WellFormed(t) && t.workingOn != Unset
    ensures var i := Index(t.workingOn, "").value;
      Run(t, PushFiles(paths)) == Ok(t.(file := t.file[i := t.file[i] + paths]))
    decreases |paths|
  {
    var i := Index(t.workingOn, "").value;
    if paths == [] {
      assert t.file[i] + paths == t.file[i];
      assert t.file[i := t.file[i] + paths] == t.file;
    } else {
      var ops := PushFiles(paths);
      assert ops[0] == PushFile(paths[0]);
      var t1 := t.(file := t.file[i := t.file[i] + [paths[0]]]);
      assert Apply(t, ops[0]) == Ok(t1);
      assert ops[1..] == PushFiles(paths[1..]);
      FilesAccumulate(t1, paths[1..]);
      assert t1.file[i] + paths[1..] == t.file[i] + paths;
      assert t1.file[i := t1.file[i] + paths[1..]] == t.file[i := t.file[i] + paths];
    }
  }

  /** A chain with no `set_type`, run on a table with nothing selected, fails
      as soon as it reaches a per-severity setter, with that setter's message. */
  lemma {:induction false} UnselectedChainFails(t: Table, ops: seq<Op>, k: nat)
    requires WellFormed(t) && t.workingOn == Unset
    requires forall j :: 0 <= j < |ops| ==> !ops[j].SelectType?
    requires k < |ops| && ops[k].PerSeverity()
    requires forall j :: 0 <= j < k ==> !ops[j].PerSeverity()
    ensures Run(t, ops) == Err(ops[k].UnselectedMsg())
    decreases |ops|
  {
    if k == 0 {
      UnselectedSetterFails(t, ops[0]);
    } else {
      assert ops[0].WithTime?;
      var t1 := t.(time := ops[0].mode);
      assert Apply(t, ops[0]) == Ok(t1);
      UnselectedChainFails(t1, ops[1..], k - 1);
    }
  }

  /** The chain the documentation of `Config` gives as "the default
      configuration written out". */
  function DocumentedChain(): seq<Op> {
    [WithTime(Local)] +
    (Group(Info, TrueColor(0, 255, 255), Stdout, NoBacktrace) +
    (Group(Warn, TrueColor(255, 215, 185), Stderr, NoBacktrace) +
    (Group(Error, TrueColor(255, 100, 0), Stderr, Simple) +
     Group(Fatal, TrueColor(255, 0, 0), Stderr, Complex))))
  }

  /** One `set_type` followed by the three overwriting setters. */
  function Group(l: Log, c: Color, k: Console, b: Backtrace): seq<Op> {
    [SelectType(l), WithColor(c), WithConsole(k), WithBacktrace(b)]
  }

  /** Continues a chain after an outcome: an error stays, a table runs ops. */
  function AndThen(r: Result<Table>, ops: seq<Op>): Result<Table>
    requires r.Ok? ==> WellFormed(r.value)
  {
    match r
    case Err(e) => Err(e)
    case Ok(t) => Run(t, ops)
  }

  /** Running a chain split in two runs the halves one after the other. */
  lemma {:induction false} RunConcat(t: Table, a: seq<Op>, b: seq<Op>)
    requires WellFormed(t)
    ensures Run(t, a + b) == AndThen(Run(t, a), b)
    decreases |a|
  {
    if a == [] {
      assert a + b == b;
    } else {
      assert (a + b)[0] == a[0];
      assert (a + b)[1..] == a[1..] + b;
      match Apply(t, a[0])
      case Err(e) =>
      case Ok(t1) => RunConcat(t1, a[1..], b);
    }
  }

  /** A chain that starts with op runs op first. */
  lemma RunOne(t: Table, op: Op, rest: seq<Op>)
    requires WellFormed(t)
    ensures Run(t, [op] + rest) == AndThen(Apply(t, op), rest)
  {
    var ops := [op] + rest;
    assert ops[0] == op && ops[1..] == rest;
  }

  /** Reading values back: after selecting l and setting its color, console
      target and backtrace, l's slot holds exactly those values, the selection
      is l, and nothing outside l's slot changed. */
  lemma SelectedValuesReadBack(t: Table, l: Log, c: Color, k: Console, b: Backtrace)
    requires WellFormed(t) && l != Unset
    ensures var i := Index(l, "").value;
      Run(t, Group(l, c, k, b)) ==
        Ok(t.(workingOn := l, color := t.color[i := c], console := t.console[i := k],
              backtrace := t.backtrace[i := b]))
  {
    var i := Index(l, "").value;
    var ops := Group(l, c, k, b);
    var t1 := t.(workingOn := l);
    var t2 := t1.(color := t.color[i := c]);
    var t3 := t2.(console := t.console[i := k]);
    var t4 := t3.(backtrace := t.backtrace[i := b]);
    assert Apply(t, SelectType(l)) == Ok(t1);
    assert Apply(t1, WithColor(c)) == Ok(t2);
    assert Apply(t2, WithConsole(k)) == Ok(t3);
    assert Apply(t3, WithBacktrace(b)) == Ok(t4);
    RunOne(t3, WithBacktrace(b), []);
    assert Run(t3, [WithBacktrace(b)]) == Ok(t4);
    RunOne(t2, WithConsole(k), [WithBacktrace(b)]);
    assert Run(t2, [WithConsole(k), WithBacktrace(b)]) == Ok(t4);
    RunOne(t1, WithColor(c), [WithConsole(k), WithBacktrace(b)]);
    assert Run(t1, [WithColor(c), WithConsole(k), WithBacktrace(b)]) == Ok(t4);
    RunOne(t, SelectType(l), [WithColor(c), WithConsole(k), WithBacktrace(b)]);
  }

  /** Setting the values a slot already holds changes only the selection. */
  lemma GroupKeepsSlot(t: Table, l: Log, c: Color, k: Console, b: Backtrace)
    requires WellFormed(t) && l != Unset
    requires var i := Index(l, "").value; t.color[i] == c && t.console[i] == k && t.backtrace[i] == b
    ensures Run(t, Group(l, c, k, b)) == Ok(t.(workingOn := l))
  {
    var i := Index(l, "").value;
    SelectedValuesReadBack(t, l, c, k, b);
    assert t.color[i := c] == t.color;
    assert t.console[i := k] == t.console;
    assert t.backtrace[i := b] == t.backtrace;
  }

  /** The documented chain reproduces the table `new()` gives, except that it
      leaves Fatal selected. */
  lemma DocumentedChainIsDefault()
    ensures Run(Default(), DocumentedChain()) == Ok(Default().(workingOn := Fatal))
  {
    var d := Default();
    var g1 := Group(Info, TrueColor(0, 255, 255), Stdout, NoBacktrace);
    var g2 := Group(Warn, TrueColor(255, 215, 185), Stderr, NoBacktrace);
    var g3 := Group(Error, TrueColor(255, 100, 0), Stderr, Simple);
    var g4 := Group(Fatal, TrueColor(255, 0, 0), Stderr, Complex);
    RunConcat(d, [WithTime(Local)], g1 + (g2 + (g3 + g4)));
    assert Run(d, [WithTime(Local)]) == Ok(d);
    RunConcat(d, g1, g2 + (g3 + g4));
    GroupKeepsSlot(d, Info, TrueColor(0, 255, 255), Stdout, NoBacktrace);
    var d1 := d.(workingOn := Info);
    RunConcat(d1, g2, g3 + g4);
    GroupKeepsSlot(d1, Warn, TrueColor(255, 215, 185), Stderr, NoBacktrace);
    var d2 := d.(workingOn := Warn);
    RunConcat(d2, g3, g4);
    GroupKeepsSlot(d2, Error, TrueColor(255, 100, 0), Stderr, Simple);
    var d3 := d.(workingOn := Error);
    GroupKeepsSlot(d3, Fatal, TrueColor(255, 0, 0), Stderr, Complex);
  }

  /** The chain of the file example: local time, then for each severity
      its own file followed by the shared "all.txt". */
  function FileExampleChain(): seq<Op> {
    [WithTime(Local)] +
    (FileGroup(Info, "info.txt") +
    (FileGroup(Warn, "warn.txt") +
    (FileGroup(Error, "error.txt") +
     FileGroup(Fatal, "fatal.txt"))))
  }

  /** One `set_type` followed by a file of the severity's own and "all.txt". */
  function FileGroup(l: Log, own: string): seq<Op> {
    [SelectType(l)] + PushFiles([own, "all.txt"])
  }

  /** A file group selects l and appends its two paths to l's list. */
  lemma FileGroupAppends(t: Table, l: Log, own: string)
    requires WellFormed(t) && l != Unset
    ensures var i := Index(l, "").value;
      Run(t, FileGroup(l, own)) == Ok(t.(workingOn := l, file := t.file[i := t.file[i] + [own, "all.txt"]]))
  {
    RunOne(t, SelectType(l), PushFiles([own, "all.txt"]));
    FilesAccumulate(t.(workingOn := l), [own, "all.txt"]);
  }

  /** The file example's chain leaves the defaults in place and gives each
      severity its own file and then "all.txt"; Fatal stays selected. */
  lemma FileExampleTable()
    ensures Run(Default(), FileExampleChain()) ==
      Ok(Default().(workingOn := Fatal,
                    file := [["info.txt", "all.txt"], ["warn.txt", "all.txt"],
                             ["error.txt", "all.txt"], ["fatal.txt", "all.txt"]]))
  {
    var d := Default();
    var g1 := FileGroup(Info, "info.txt");
    var g2 := FileGroup(Warn, "warn.txt");
    var g3 := FileGroup(Error, "error.txt");
    var g4 := FileGroup(Fatal, "fatal.txt");
    var f1 := [["info.txt", "all.txt"], [], [], []];
    var f2 := [["info.txt", "all.txt"], ["warn.txt", "all.txt"], [], []];
    var f3 := [["info.txt", "all.txt"], ["warn.txt", "all.txt"], ["error.txt", "all.txt"], []];
    var f4 := [["info.txt", "all.txt"], ["warn.txt", "all.txt"], ["error.txt", "all.txt"], ["fatal.txt", "all.txt"]];
    var d1 := d.(workingOn := Info, file := f1);
    var d2 := d.(workingOn := Warn, file := f2);
    var d3 := d.(workingOn := Error, file := f3);
    var d4 := d.(workingOn := Fatal, file := f4);
    assert Run(d, g1) == Ok(d1) by {
      FileGroupAppends(d, Info, "info.txt");
      assert d.file[0] + ["info.txt", "all.txt"] == ["info.txt", "all.txt"];
      assert d.file[0 := d.file[0] + ["info.txt", "all.txt"]] == f1;
    }
    assert Run(d1, g2) == Ok(d2) by {
      FileGroupAppends(d1, Warn, "warn.txt");
      assert d1.file[1] + ["warn.txt", "all.txt"] == ["warn.txt", "all.txt"];
      assert d1.file[1 := d1.file[1] + ["warn.txt", "all.txt"]] == f2;
    }
    assert Run(d2, g3) == Ok(d3) by {
      FileGroupAppends(d2, Error, "error.txt");
      assert d2.file[2] + ["error.txt", "all.txt"] == ["error.txt", "all.txt"];
      assert d2.file[2 := d2.file[2] + ["error.txt", "all.txt"]] == f3;
    }
    assert Run(d3, g4) == Ok(d4) by {
      FileGroupAppends(d3, Fatal, "fatal.txt");
      assert d3.file[3] + ["fatal.txt", "all.txt"] == ["fatal.txt", "all.txt"];
      assert d3.file[3 := d3.file[3] + ["fatal.txt", "all.txt"]] == f4;
    }
    RunConcat(d2, g3, g4);
    RunConcat(d1, g2, g3 + g4);
    RunConcat(d, g1, g2 + (g3 + g4));
    RunOne(d, WithTime(Local), g1 + (g2 + (g3 + g4)));
    assert Apply(d, WithTime(Local)) == Ok(d);
  }
}
