/** The test processes of the add-on generation
    (`addon/test_manager/process.py`): an output handler that stands in for
    `sys.stdout` while a test runs and buffers what it prints, a decorator
    that hands the buffer to the unit, and the background and in-process
    outcome rules. */
module AddonProcess {
  import opened Strings
  import opened Seqs
  import opened Py
  import opened Fixtures
  import opened Runner

  /** `OutputHandler`: whether to echo, and the buffered messages. */
  datatype OutputHandler = OutputHandler(display: bool, messages: seq<string>)

  /** `OutputHandler(display_output)`. */
  function NewHandler(display: bool): (h: OutputHandler)
    ensures h.display == display && h.messages == []
  {
    OutputHandler(display, [])
  }

  /** What code running under the handler does to `sys.stdout`. */
  datatype StreamOp = WriteOp(message: string) | FlushOp

  /** The messages `write` ignores. */
  predicate Ignored(message: string) {
    message == "" || message == "\n"
  }

  /** Every buffered message already has its trailing whitespace removed. */
  predicate Stripped(h: OutputHandler) {
    forall i :: 0 <= i < |h.messages| ==> RStrip(h.messages[i]) == h.messages[i]
  }

  /** `write`: the empty string and a lone newline leave the buffer alone;
      anything else is right-stripped and appended.  Echoing to the real
      standard output changes nothing here. */
  function Write(h: OutputHandler, message: string): (r: OutputHandler)
    ensures r.display == h.display
    ensures Ignored(message) ==> r == h
    ensures !Ignored(message) ==> |r.messages| == |h.messages| + 1 && r.messages[..|h.messages|] == h.messages
    ensures !Ignored(message) ==> StartsWith(message, r.messages[|h.messages|])
    ensures Stripped(h) ==> Stripped(r)
  {
    if Ignored(message) then h
    else
      var line := RStrip(message);
      RStripIdempotent(message);
      OutputHandler(h.display, h.messages + [line])
  }

  /** A message of whitespace other than a lone newline is kept as an
      empty line. */
  lemma BlankMessageAppendsEmptyLine(h: OutputHandler, message: string)
    requires message != "" && message != "\n" && AllSpace(message)
    ensures Write(h, message).messages == h.messages + [""]
  {
    RStripAllSpace(message);
  }

  /** `flush` does nothing. */
  function Flush(h: OutputHandler): (r: OutputHandler)
    ensures r.messages == h.messages
  {
    h
  }

  /** Running a sequence of stream operations against the handler. */
  function Play(h: OutputHandler, ops: seq<StreamOp>): (r: OutputHandler)
    ensures r.display == h.display
    ensures |h.messages| <= |r.messages| && r.messages[..|h.messages|] == h.messages
    ensures Stripped(h) ==> Stripped(r)
    decreases |ops|
  {
    if |ops| == 0 then h
    else
      var next := match ops[0]
        case WriteOp(m) => Write(h, m)
        case FlushOp => Flush(h);
      var r := Play(next, ops[1..]);
      assert r.messages[..|h.messages|] == r.messages[..|next.messages|][..|h.messages|];
      r
  }

  function IsWrite(): StreamOp -> bool {
    (op: StreamOp) => op.WriteOp?
  }

  function Appends(): StreamOp -> bool {
    (op: StreamOp) => op.WriteOp? && !Ignored(op.message)
  }

  /** Flushes can be dropped from any stream without changing the buffer. */
  lemma {:induction false} FlushIsInert(h: OutputHandler, ops: seq<StreamOp>)
    ensures Play(h, ops) == Play(h, Filter(ops, IsWrite()))
    decreases |ops|
  {
    if |ops| > 0 {
      FlushIsInert(if ops[0].WriteOp? then Write(h, ops[0].message) else h, ops[1..]);
    }
  }

  /** The buffer grows by one line per write that is not ignored. */
  lemma {:induction false} PlayLength(h: OutputHandler, ops: seq<StreamOp>)
    ensures |Play(h, ops).messages| == |h.messages| + CountWhere(ops, Appends())
    decreases |ops|
  {
    if |ops| > 0 {
      PlayLength(if ops[0].WriteOp? then Write(h, ops[0].message) else h, ops[1..]);
    }
  }

  /** `overwrite_standard_output`: after the decorated `execute` returns,
      the unit's `result_lines` is the handler's buffer; when `execute`
      raises, the exception passes through and `result_lines` is never
      set (`None`). */
  function Captured(run: Result<(bool, OutputHandler), Escape>): (r: (Result<bool, Escape>, Option<seq<string>>))
    ensures run.Err? ==> r == (Err(run.error), None)
    ensures run.Ok? ==> r.0 == Ok(run.value.0) && r.1 == Some(run.value.1.messages)
  {
    match run
    case Err(e) => (Err(e), None)
    case Ok((ok, h)) => (Ok(ok), Some(h.messages))
  }

  /** `BackgroundTest.execute`: the subprocess's own output does not go
      through the handler; on a non-zero exit code the decoded standard
      error is appended to the buffer directly, without stripping, and the
      test fails. */
  function BackgroundExecute(h: OutputHandler, returncode: int, stderr: string): (r: (bool, OutputHandler))
    ensures r.0 <==> returncode == 0
    ensures r.0 ==> r.1 == h
    ensures !r.0 ==> r.1.messages == h.messages + ["Error: " + stderr]
  {
    if returncode != 0 then (false, OutputHandler(h.display, h.messages + ["Error: " + stderr]))
    else (true, h)
  }

  /** The error line of a background failure keeps the trailing
      whitespace that `write` would have stripped: whenever the standard
      error ends in whitespace, the buffered line differs from the one a
      write of the same text would leave. */
  lemma BackgroundErrorNotStripped(h: OutputHandler, returncode: int, stderr: string)
    requires returncode != 0 && |stderr| > 0 && IsSpace(stderr[|stderr| - 1])
    ensures BackgroundExecute(h, returncode, stderr).1.messages == h.messages + ["Error: " + stderr]
    ensures Write(h, "Error: " + stderr).messages == h.messages + [RStrip("Error: " + stderr)]
    ensures RStrip("Error: " + stderr) != "Error: " + stderr
    ensures BackgroundExecute(h, returncode, stderr).1 != Write(h, "Error: " + stderr)
  {
    var line := "Error: " + stderr;
    assert line[|line| - 1] == stderr[|stderr| - 1];
    assert !Ignored(line) by {
      assert |line| > 1;
    }
    if RStrip(line) == line {
      assert false;
    }
    assert BackgroundExecute(h, returncode, stderr).1.messages[|h.messages|] == line;
    assert Write(h, line).messages[|h.messages|] == RStrip(line);
  }

  /** The decorated background run from a fresh handler: no lines on
      success, exactly the error line on failure. */
  lemma BackgroundResultLines(display: bool, returncode: int, stderr: string)
    ensures var r := Captured(Ok(BackgroundExecute(NewHandler(display), returncode, stderr)));
      r.0 == Ok(returncode == 0)
      && r.1 == Some(if returncode == 0 then [] else ["Error: " + stderr])
  {
    assert [] + ["Error: " + stderr] == ["Error: " + stderr];
  }

  /** `RuntimeTest.execute`: the module is executed and the attribute looked
      up outside any `try`, so their exceptions pass through.  A callable
      is called with no arguments; whatever it prints goes to the handler
      (`printed`), and if the call raises (a missing argument included),
      the traceback text (`traceback`) is written too and the test fails.
      The call's return value is ignored. */
  function RuntimeExecute(h: OutputHandler, m: TestModule<Func>, name: string,
                          printed: seq<StreamOp>, traceback: seq<StreamOp>)
    : (r: Result<(bool, OutputHandler), Escape>)
    ensures m.ModuleNotFound? ==> r == Err(ImportFailed(true))
    ensures m.ImportRaised? ==> r == Err(ImportFailed(false))
    ensures m.Loaded? ==> (r.Err? <==> name !in m.attrs)
    ensures r.Err? && m.Loaded? ==> r.error == MissingAttribute(name)
    ensures r.Ok? ==> (!r.value.0 <==> m.attrs[name].Callable? && RaisesWithoutArguments(m.attrs[name]))
    ensures r.Ok? && r.value.0 ==> r.value.1 == h || r.value.1 == Play(h, printed)
  {
    match m
    case ModuleNotFound(_) => Err(ImportFailed(true))
    case ImportRaised(_) => Err(ImportFailed(false))
    case Loaded(_, attrs) =>
      if name !in attrs then Err(MissingAttribute(name))
      else match attrs[name]
        case NotCallable => Ok((true, h))
        case Callable(func, behaves) =>
          if !Binds(func.params, func.defaults, 0, false) then Ok((false, Play(h, traceback)))
          else match behaves
            case Raises(_, _) => Ok((false, Play(Play(h, printed), traceback)))
            case Returns(_) => Ok((true, Play(h, printed)))
            case Generator => Ok((true, h))
  }

  /** Calling the attribute with no arguments raises: it needs an argument
      it has no default for, or its body raises. */
  predicate RaisesWithoutArguments(a: Attribute)
    requires a.Callable?
  {
    !Binds(a.func.params, a.func.defaults, 0, false) || a.behaves.Raises?
  }

  /** A test returning `False`, or anything else, passes here, where the
      runner of the Blender module fails it. */
  lemma RuntimeIgnoresReturnValue(h: OutputHandler, func: Func, v: PyValue, printed: seq<StreamOp>, traceback: seq<StreamOp>)
    requires Binds(func.params, func.defaults, 0, false)
    ensures var m := Loaded([], map["test_it" := Callable(func, TestBody.Returns(v))]);
      RuntimeExecute(h, m, "test_it", printed, traceback) == Ok((true, Play(h, printed)))
  {
  }

  /** A failing in-process run leaves what the test printed followed by the
      traceback text in the unit's lines. */
  lemma RuntimeFailureLines(display: bool, func: Func, exception: string, message: string,
                            printed: seq<StreamOp>, traceback: seq<StreamOp>)
    requires Binds(func.params, func.defaults, 0, false)
    ensures var m := Loaded([], map["test_it" := Callable(func, TestBody.Raises(exception, message))]);
      var r := Captured(RuntimeExecute(NewHandler(display), m, "test_it", printed, traceback));
      r.0 == Ok(false) && r.1 == Some(Play(Play(NewHandler(display), printed), traceback).messages)
  {
  }
}
