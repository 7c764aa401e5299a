/**
 * The `dwebp` controller: exclusive input slots (file, reader), exclusive
 * output slots (file, writer), the argument list `RunWithContext` builds, the
 * classification of a failed run, and the rule that an image is returned only
 * when no output was requested.
 */
module Dwebp {
  import opened Wrappers
  import opened Handles
  import opened Binwrapper
  import opened Webpbin

  /** The option fields of a controller, as one value. */
  datatype Options = Options(inputFile: string, input: Option<Reader>, outputFile: string, output: Option<Writer>)

  /** The fields of a new controller: nothing set. */
  const Defaults := Options("", None, "", None)

  /** At most one input slot and one output slot in use. */
  predicate WellFormed(o: Options) {
    (o.inputFile != "" ==> o.input.None?) && (o.output.Some? ==> o.outputFile == "")
  }

  /** `getOutput`: the output file if one is named, otherwise stdout ("-"), writer or not; it never fails. */
  function ResolveOutput(o: Options): (out: string)
    ensures out != ""
    ensures o.outputFile != "" ==> out == o.outputFile
    ensures o.outputFile == "" ==> out == "-"
  {
    if o.outputFile != "" then o.outputFile else "-"
  }

  /** `setInput`: a reader wins over a file and is read from stdin. */
  function InputSetup(o: Options): (r: Result<Request, string>)
    ensures r.Success? <==> o.input.Some? || o.inputFile != ""
    ensures r.Success? ==> r.value.stdin == o.input && r.value.stdoutSink == None
    ensures r.Success? ==> (o.input.Some? <==> r.value.args == ["--", "-"])
    ensures r.Success? && o.input.None? ==> r.value.args == [o.inputFile]
    ensures r.Failure? ==> r.error == "undefined input"
  {
    if o.input.Some? then Success(Request(["--", "-"], o.input, None))
    else if o.inputFile != "" then Success(Request([o.inputFile], None, None))
    else Failure("undefined input")
  }

  /** What `RunWithContext` adds to the wrapper before starting the tool, or the error it returns first. */
  function Plan(o: Options): (r: Result<Request, string>)
    ensures r.Success? <==> InputSetup(o).Success?
    ensures r.Failure? ==> r.error == "failed to set input: " + InputSetup(o).error
    ensures r.Success? ==> |r.value.args| >= 2 && r.value.args[..2] == ["-o", ResolveOutput(o)]
    ensures r.Success? ==> r.value.stdin == o.input && r.value.stdoutSink == o.output
  {
    match InputSetup(o)
    case Failure(e) => Failure("failed to set input: " + e)
    case Success(inp) => Success(Request(["-o", ResolveOutput(o)] + inp.args, inp.stdin, o.output))
  }

  /** Where the tool reads its input, as its command line says. */
  datatype InputSpec = FromStdin | FromFile(path: string)

  /** The options a `dwebp` command line carries. */
  datatype Command = Command(output: string, input: InputSpec)

  /** Reads a command line of the shape `RunWithContext` builds: -o OUT (-- - | FILE). */
  function ParseArgs(args: seq<string>): Option<Command> {
    if |args| >= 2 && args[0] == "-o" then
      var rest := args[2..];
      if rest == ["--", "-"] then Some(Command(args[1], FromStdin))
      else if |rest| == 1 then Some(Command(args[1], FromFile(rest[0])))
      else None
    else None
  }

  /**
   * The argument list is an exact encoding of the options: reading it back
   * yields the resolved output and the input route; stdin is the reader and
   * the stdout sink the writer.
   */
  lemma PlanRoundTrip(o: Options)
    requires Plan(o).Success?
    ensures ParseArgs(Plan(o).value.args) ==
      Some(Command(if o.outputFile != "" then o.outputFile else "-",
                   if o.input.Some? then FromStdin else FromFile(o.inputFile)))
    ensures Plan(o).value.stdin == o.input
    ensures Plan(o).value.stdoutSink == o.output
  {
    var inp := InputSetup(o).value;
    assert Plan(o).value.args[2..] == inp.args;
  }

  /** Setup fails only when no input is set, and then with this message. */
  lemma PlanErrors(o: Options)
    ensures Plan(o).Failure? <==> o.input.None? && o.inputFile == ""
    ensures Plan(o).Failure? ==> Plan(o).error == "failed to set input: undefined input"
  {
  }

  /** Whether the run saw the cancellation: the context fired and its watcher had closed `done`. */
  predicate CancellationObserved(ctx: Context, watcherDone: bool) {
    ctx.Cancelled? && watcherDone
  }

  /** The error of a failed run: cancellation if it was observed, otherwise the tool's failure with stderr. */
  function FailureMessage(ctx: Context, watcherDone: bool, err: string, stderr: string): (msg: string)
    ensures "operation cancelled: " <= msg <==> CancellationObserved(ctx, watcherDone)
    ensures "dwebp command failed: " <= msg <==> !CancellationObserved(ctx, watcherDone)
    ensures CancellationObserved(ctx, watcherDone) ==> msg[|"operation cancelled: "|..] == ctx.err
    ensures !CancellationObserved(ctx, watcherDone) ==> |msg| >= |stderr| && msg[|msg| - |stderr|..] == stderr
  {
    if CancellationObserved(ctx, watcherDone) then
      var msg := "operation cancelled: " + ctx.err;
      assert msg[0] == 'o';
      msg
    else
      var msg := "dwebp command failed: " + err + ". stderr: " + stderr;
      assert msg[0] == 'd';
      msg
  }

  /** What a decode returns once the tool has been started. */
  datatype Outcome = Outcome(img: Option<Image>, err: Option<string>)

  /**
   * The result after the tool ran: a failure is classified; on success an image
   * is decoded from stdout only when no output was requested, otherwise nothing
   * is returned. `decodePng` is PNG decoding, which may fail.
   */
  function Finish(o: Options, ctx: Context, watcherDone: bool, outcome: ExecOutcome,
                  decodePng: string -> Result<Image, string>): (r: Outcome)
    ensures r.img.Some? ==> r.err.None?
    ensures outcome.Failed? ==> r == Outcome(None, Some(FailureMessage(ctx, watcherDone, outcome.err, outcome.stderr)))
    ensures r.img.None? && r.err.None? <==> outcome.Exited? && (o.output.Some? || o.outputFile != "")
  {
    match outcome
    case Failed(e, stderr) => Outcome(None, Some(FailureMessage(ctx, watcherDone, e, stderr)))
    case Exited(stdout) =>
      if o.output.None? && o.outputFile == "" then
        match decodePng(stdout)
        case Success(img) => Outcome(Some(img), None)
        case Failure(e) => Outcome(None, Some("failed to decode PNG output: " + e))
      else Outcome(None, None)
  }

  /**
   * The return-value rule: an image comes back exactly when the tool succeeded,
   * no output was requested and its stdout decodes; never with an error; with an
   * output requested a successful run returns neither; a successful run ignores
   * the context; a background context never yields a cancellation error.
   */
  lemma FinishRules(o: Options, ctx: Context, watcherDone: bool, outcome: ExecOutcome,
                    decodePng: string -> Result<Image, string>)
    ensures Finish(o, ctx, watcherDone, outcome, decodePng).img.Some? <==>
      outcome.Exited? && o.output.None? && o.outputFile == "" && decodePng(outcome.stdout).Success?
    ensures Finish(o, ctx, watcherDone, outcome, decodePng).img.Some? ==>
      Finish(o, ctx, watcherDone, outcome, decodePng).err.None?
    ensures outcome.Exited? && (o.output.Some? || o.outputFile != "") ==>
      Finish(o, ctx, watcherDone, outcome, decodePng) == Outcome(None, None)
    ensures outcome.Exited? ==>
      Finish(o, ctx, watcherDone, outcome, decodePng) == Finish(o, Background, false, outcome, decodePng)
    ensures outcome.Failed? ==> Finish(o, ctx, watcherDone, outcome, decodePng).err.Some?
    ensures ctx == Background && Finish(o, ctx, watcherDone, outcome, decodePng).err.Some? ==>
      !("operation cancelled: " <= Finish(o, ctx, watcherDone, outcome, decodePng).err.value)
  {
    if outcome.Exited? && o.output.None? && o.outputFile == "" && decodePng(outcome.stdout).Failure? {
      var msg := "failed to decode PNG output: " + decodePng(outcome.stdout).error;
      assert msg[0] == 'f';
    }
  }

  /** A `dwebp` controller. */
  class DWebP {
    const bin: BinWrapper
    var inputFile: string
    var input: Option<Reader>
    var outputFile: string
    var output: Option<Writer>

    function Opts(): Options
      reads this
    {
      Options(inputFile, input, outputFile, output)
    }

    ghost predicate Valid()
      reads this
    {
      WellFormed(Opts())
    }

    constructor (b: BinWrapper)
      ensures bin == b && Opts() == Defaults && Valid()
    {
      bin := b;
      inputFile, input, outputFile, output := "", None, "", None;
    }

    /** Reads from a file; clears the reader. */
    method InputFile(file: string)
      requires Valid()
      modifies this
      ensures Valid()
      ensures Opts() == old(Opts()).(inputFile := file, input := None)
    {
      input := None;
      inputFile := file;
    }

    /** Reads from a reader; clears the file. */
    method Input(reader: Option<Reader>)
      requires Valid()
      modifies this
      ensures Valid()
      ensures Opts() == old(Opts()).(inputFile := "", input := reader)
    {
      inputFile := "";
      input := reader;
    }

    /** Writes to a file; clears the writer. */
    method OutputFile(file: string)
      requires Valid()
      modifies this
      ensures Valid()
      ensures Opts() == old(Opts()).(outputFile := file, output := None)
    {
      output := None;
      outputFile := file;
    }

    /** Writes to a writer; clears the file. */
    method Output(writer: Option<Writer>)
      requires Valid()
      modifies this
      ensures Valid()
      ensures Opts() == old(Opts()).(outputFile := "", output := writer)
    {
      outputFile := "";
      output := writer;
    }

    /** `getOutput`, on this controller's fields. */
    method GetOutput() returns (out: string)
      ensures out == ResolveOutput(Opts())
    {
      if outputFile != "" {
        return outputFile;
      }
      return "-";
    }

    /** `setInput`: appends the input arguments and installs stdin, or fails without changing anything. */
    method SetInput() returns (err: Option<string>)
      modifies bin`args, bin`stdin
      ensures InputSetup(Opts()).Failure? ==>
        err == Some(InputSetup(Opts()).error) && bin.args == old(bin.args) && bin.stdin == old(bin.stdin)
      ensures InputSetup(Opts()).Success? ==>
        err == None &&
        bin.args == old(bin.args) + InputSetup(Opts()).value.args &&
        bin.stdin == InputSetup(Opts()).value.stdin.Or(old(bin.stdin))
    {
      if input.Some? {
        bin.Arg(["--", "-"]);
        bin.StdIn(input.value);
      } else if inputFile != "" {
        bin.Arg([inputFile]);
      } else {
        return Some("undefined input");
      }
      return None;
    }

    /**
     * `RunWithContext`: builds the argument list, starts `dwebp` once setup
     * succeeds, and interprets the outcome. `ctx` is the context, `watcherDone`
     * whether its watcher had closed `done` when the run returned, `outcome`
     * what the process did. The wrapper is reset on every path.
     */
    method RunWithContext(ctx: Context, watcherDone: bool, outcome: ExecOutcome,
                          decodePng: string -> Result<Image, string>) returns (img: Option<Image>, err: Option<string>)
      modifies bin`args, bin`stdin, bin`stdoutSink, bin`stdout, bin`stderr, bin`launched
      ensures unchanged(this)
      ensures bin.Idle()
      ensures Plan(Opts()).Failure? ==>
        img == None && err == Some(Plan(Opts()).error) && bin.launched == old(bin.launched)
      ensures Plan(Opts()).Success? ==>
        bin.launched == old(bin.launched) + [old(bin.Prepared(Plan(Opts()).value))] &&
        Outcome(img, err) == Finish(Opts(), ctx, watcherDone, outcome, decodePng)
    {
      ghost var before := bin.args;
      ghost var prepared := if Plan(Opts()).Success? then bin.Prepared(Plan(Opts()).value) else bin.Prepared(Request([], None, None));
      var out := GetOutput();
      bin.Arg(["-o", out]);
      var inErr := SetInput();
      if inErr.Some? {
        bin.Reset();
        return None, Some("failed to set input: " + inErr.value);
      }
      if output.Some? {
        bin.SetStdOut(output.value);
      }
      assert bin.args + [] == before + Plan(Opts()).value.args;
      var runErr := bin.Run([], outcome);
      assert bin.launched == old(bin.launched) + [prepared];
      if runErr.Some? {
        if ctx.Cancelled? && watcherDone {
          err := Some("operation cancelled: " + ctx.err);
        } else {
          err := Some("dwebp command failed: " + runErr.value + ". stderr: " + bin.stderr);
        }
        bin.Reset();
        return None, err;
      }
      if output.None? && outputFile == "" {
        var decoded := decodePng(bin.stdout);
        bin.Reset();
        if decoded.Failure? {
          return None, Some("failed to decode PNG output: " + decoded.error);
        }
        return Some(decoded.value), None;
      }
      bin.Reset();
      return None, None;
    }

    /** `Run`: `RunWithContext` with a context that is never cancelled. */
    method Run(outcome: ExecOutcome, decodePng: string -> Result<Image, string>) returns (img: Option<Image>, err: Option<string>)
      modifies bin`args, bin`stdin, bin`stdoutSink, bin`stdout, bin`stderr, bin`launched
      ensures unchanged(this)
      ensures bin.Idle()
      ensures Plan(Opts()).Failure? ==>
        img == None && err == Some(Plan(Opts()).error) && bin.launched == old(bin.launched)
      ensures Plan(Opts()).Success? ==>
        bin.launched == old(bin.launched) + [old(bin.Prepared(Plan(Opts()).value))] &&
        Outcome(img, err) == Finish(Opts(), Background, false, outcome, decodePng)
    {
      img, err := RunWithContext(Background, false, outcome, decodePng);
    }

    /** The version of the `dwebp` binary. */
    method Version(outcome: ExecOutcome) returns (v: string, err: Option<string>)
      modifies bin`args, bin`stdin, bin`stdoutSink, bin`stdout, bin`stderr, bin`launched
      ensures bin.launched == old(bin.launched) + [Invocation(bin.execPath, ["-version"], None, None)]
      ensures outcome.Exited? ==> err == None && v == CleanVersion(outcome.stdout)
      ensures outcome.Failed? ==> err == Some(outcome.err) && v == ""
      ensures bin.args == [] && bin.stdin == None && bin.stdoutSink == None
      ensures outcome.Exited? ==> bin.stdout == outcome.stdout && bin.stderr == ""
      ensures outcome.Failed? ==> bin.stdout == "" && bin.stderr == outcome.stderr
    {
      v, err := Webpbin.Version(bin, outcome);
    }
  }

  /** `NewDWebP`: a fresh controller on a fresh wrapper for the `dwebp` executable. */
  method NewDWebP(g: Globals, env: Env, optionFuncs: seq<OptionFunc>) returns (d: DWebP)
    modifies g
    ensures fresh(d) && fresh(d.bin) && d.Valid() && d.Opts() == Defaults
    ensures d.bin.execPath == "dwebp" && d.bin.Idle() && d.bin.launched == []
    ensures g.Current() == ApplyAll(EnvOverlay(old(g.Current()), env), optionFuncs)
    ensures d.bin.sources == if g.skipDownload then [] else Sources(g.libwebpVersion)
    ensures d.bin.strip == 2 && d.bin.dest == g.dest
  {
    var b := CreateBinWrapper(g, env, optionFuncs);
    d := new DWebP(b);
    b.ExecPath("dwebp");
  }
}
