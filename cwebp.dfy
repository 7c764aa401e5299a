/**
 * The `cwebp` controller: exclusive input slots (file, reader, image),
 * exclusive output slots (file, writer), quality and crop options, and the
 * argument list `Run` builds from them before starting the tool.
 */
module Cwebp {
  import opened Wrappers
  import opened Handles
  import opened Decimal
  import opened Binwrapper
  import opened Webpbin

  /** A crop rectangle, passed to the tool unchecked. */
  datatype CropInfo = CropInfo(x: int, y: int, width: int, height: int)

  /** The option fields of a controller, as one value. */
  datatype Options = Options(
    inputFile: string,
    inputImage: Option<Image>,
    input: Option<Reader>,
    outputFile: string,
    output: Option<Writer>,
    quality: int,
    crop: Option<CropInfo>)

  /** The fields of a new controller: nothing set, quality -1 (the tool's default). */
  const Defaults := Options("", None, None, "", None, -1, None)

  /** At most one input and one output slot in use; quality unset (-1) or within 0..100. */
  predicate WellFormed(o: Options) {
    (o.inputFile != "" ==> o.input.None? && o.inputImage.None?) &&
    (o.input.Some? ==> o.inputImage.None?) &&
    (o.output.Some? ==> o.outputFile == "") &&
    -1 <= o.quality <= 100
  }

  /** `getOutput`: a writer means stdout ("-"), otherwise the output file if one is named. */
  function ResolveOutput(o: Options): (r: Result<string, string>)
    ensures r.Success? <==> o.output.Some? || o.outputFile != ""
    ensures r.Success? ==> r.value != ""
    ensures r.Failure? ==> r.error == "Undefined output"
    ensures o.output.Some? ==> r == Success("-")
    ensures o.output.None? && o.outputFile != "" ==> r == Success(o.outputFile)
  {
    if o.output.Some? then Success("-")
    else if o.outputFile != "" then Success(o.outputFile)
    else Failure("Undefined output")
  }

  /** The `-q` option, present only when the quality is set. */
  function QualityArgs(quality: int): (r: seq<string>)
    ensures r == [] <==> quality <= -1
    ensures r != [] ==> |r| == 2 && r[0] == "-q" && ParseInt(r[1]) == Some(quality)
  {
    if quality > -1 then ParseFormatInt(quality); ["-q", FormatInt(quality)] else []
  }

  /** The `-crop` option with the four numbers verbatim, present only when a crop is set. */
  function CropArgs(crop: Option<CropInfo>): (r: seq<string>)
    ensures r == [] <==> crop.None?
    ensures crop.Some? ==> (|r| == 5 && r[0] == "-crop" &&
      ParseInt(r[1]) == Some(crop.value.x) && ParseInt(r[2]) == Some(crop.value.y) &&
      ParseInt(r[3]) == Some(crop.value.width) && ParseInt(r[4]) == Some(crop.value.height))
  {
    match crop
    case Some(c) =>
      ParseFormatInt(c.x); ParseFormatInt(c.y); ParseFormatInt(c.width); ParseFormatInt(c.height);
      ["-crop", FormatInt(c.x), FormatInt(c.y), FormatInt(c.width), FormatInt(c.height)]
    case None => []
  }

  /**
   * `setInput`: a reader wins over an image, an image over a file; stream input
   * is read from stdin. `encodePng` is the PNG encoding of an image, which may fail.
   */
  function InputSetup(o: Options, encodePng: Image -> Result<Reader, string>): (r: Result<Request, string>)
    ensures r.Success? <==>
      o.input.Some? || (o.inputImage.Some? && encodePng(o.inputImage.value).Success?) || (o.inputImage.None? && o.inputFile != "")
    ensures r.Success? ==> r.value.stdoutSink == None && (r.value.stdin.Some? <==> r.value.args == ["--", "-"])
    ensures r.Success? && r.value.stdin.None? ==> r.value.args == [o.inputFile]
    ensures o.input.Some? ==> r.Success? && r.value.stdin == o.input
    ensures r.Failure? && o.inputImage.None? ==> r.error == "Undefined input"
  {
    if o.input.Some? then Success(Request(["--", "-"], o.input, None))
    else if o.inputImage.Some? then
      match encodePng(o.inputImage.value)
      case Success(r) => Success(Request(["--", "-"], Some(r), None))
      case Failure(e) => Failure(e)
    else if o.inputFile != "" then Success(Request([o.inputFile], None, None))
    else Failure("Undefined input")
  }

  /** What `Run` adds to the wrapper before starting the tool, or the error it returns first. */
  function Plan(o: Options, encodePng: Image -> Result<Reader, string>): (r: Result<Request, string>)
    ensures r.Success? <==> ResolveOutput(o).Success? && InputSetup(o, encodePng).Success?
    ensures ResolveOutput(o).Failure? ==> r == Failure("Undefined output")
    ensures ResolveOutput(o).Success? && InputSetup(o, encodePng).Failure? ==> r == Failure(InputSetup(o, encodePng).error)
    ensures r.Success? ==> r.value.stdin == InputSetup(o, encodePng).value.stdin && r.value.stdoutSink == o.output
  {
    match ResolveOutput(o)
    case Failure(e) => Failure(e)
    case Success(out) =>
      match InputSetup(o, encodePng)
      case Failure(e) => Failure(e)
      case Success(inp) => Success(Request(QualityArgs(o.quality) + CropArgs(o.crop) + ["-o", out] + inp.args, inp.stdin, o.output))
  }

  /** Helper for `CWebP.Run`: regrouping the four pieces of its argument list. */
  lemma AppendAssoc(a: seq<string>, b: seq<string>, c: seq<string>, d: seq<string>)
    ensures ((a + b) + c) + d == a + ((b + c) + d)
  {
  }

  /** Helper for `CWebP.Run`: `Plan` step by step, output resolution first, then input setup. */
  lemma PlanSteps(o: Options, encodePng: Image -> Result<Reader, string>)
    ensures ResolveOutput(o).Failure? ==> Plan(o, encodePng) == Failure(ResolveOutput(o).error)
    ensures ResolveOutput(o).Success? && InputSetup(o, encodePng).Failure? ==> Plan(o, encodePng) == Failure(InputSetup(o, encodePng).error)
    ensures ResolveOutput(o).Success? && InputSetup(o, encodePng).Success? ==> Plan(o, encodePng) == Success(Request(
      QualityArgs(o.quality) + CropArgs(o.crop) + ["-o", ResolveOutput(o).value] + InputSetup(o, encodePng).value.args,
      InputSetup(o, encodePng).value.stdin, o.output))
  {
  }

  /** The error `Run` returns for a process outcome: the run error, ". ", then stderr. */
  function RunError(outcome: ExecOutcome): (err: Option<string>)
    ensures err.None? <==> outcome.Exited?
    ensures outcome.Failed? ==> outcome.err + ". " <= err.value
    ensures outcome.Failed? ==>
      (|err.value| >= |outcome.stderr| && err.value[|err.value| - |outcome.stderr|..] == outcome.stderr)
  {
    match outcome
    case Exited(_) => None
    case Failed(e, stderr) => Some(e + ". " + stderr)
  }

  /** Where the tool reads its input, as its command line says. */
  datatype InputSpec = FromStdin | FromFile(path: string)

  /** The options a `cwebp` command line carries. */
  datatype Command = Command(quality: Option<int>, crop: Option<CropInfo>, output: string, input: InputSpec)

  /** Reads a command line of the shape `Run` builds: [-q Q] [-crop X Y W H] -o OUT (-- - | FILE). */
  function ParseArgs(args: seq<string>): Option<Command> {
    if |args| >= 2 && args[0] == "-q" then
      match ParseInt(args[1])
      case Some(q) => ParseCrop(Some(q), args[2..])
      case None => None
    else ParseCrop(None, args)
  }

  function ParseCrop(q: Option<int>, args: seq<string>): Option<Command> {
    if |args| >= 5 && args[0] == "-crop" then
      match (ParseInt(args[1]), ParseInt(args[2]), ParseInt(args[3]), ParseInt(args[4]))
      case (Some(x), Some(y), Some(w), Some(h)) => ParseTail(q, Some(CropInfo(x, y, w, h)), args[5..])
      case _ => None
    else ParseTail(q, None, args)
  }

  function ParseTail(q: Option<int>, c: Option<CropInfo>, args: seq<string>): Option<Command> {
    if |args| >= 2 && args[0] == "-o" then
      var rest := args[2..];
      if rest == ["--", "-"] then Some(Command(q, c, args[1], FromStdin))
      else if |rest| == 1 then Some(Command(q, c, args[1], FromFile(rest[0])))
      else None
    else None
  }

  lemma ParseTailOf(q: Option<int>, c: Option<CropInfo>, out: string, input: seq<string>)
    requires input == ["--", "-"] || |input| == 1
    ensures ParseTail(q, c, ["-o", out] + input) ==
      Some(Command(q, c, out, if input == ["--", "-"] then FromStdin else FromFile(input[0])))
  {
    assert (["-o", out] + input)[2..] == input;
  }

  lemma ParseCropOf(q: Option<int>, crop: Option<CropInfo>, tail: seq<string>)
    requires |tail| >= 1 && tail[0] == "-o"
    ensures ParseCrop(q, CropArgs(crop) + tail) == ParseTail(q, crop, tail)
  {
    match crop
    case Some(c) =>
      ParseFormatInt(c.x);
      ParseFormatInt(c.y);
      ParseFormatInt(c.width);
      ParseFormatInt(c.height);
      assert (CropArgs(crop) + tail)[5..] == tail;
    case None =>
  }

  lemma ParseArgsOf(quality: int, rest: seq<string>)
    requires |rest| >= 1 && (rest[0] == "-crop" || rest[0] == "-o")
    ensures ParseArgs(QualityArgs(quality) + rest) == ParseCrop(if quality > -1 then Some(quality) else None, rest)
  {
    if quality > -1 {
      ParseFormatInt(quality);
      assert (QualityArgs(quality) + rest)[2..] == rest;
    }
  }

  /**
   * The argument list `Run` builds is an exact encoding of the options: reading
   * it back yields the quality when set, the crop verbatim, the resolved output
   * and the input route; stdin is the reader, else the PNG of the image; the
   * stdout sink is the writer.
   */
  lemma PlanRoundTrip(o: Options, encodePng: Image -> Result<Reader, string>)
    requires Plan(o, encodePng).Success?
    ensures ParseArgs(Plan(o, encodePng).value.args) == Some(Command(
      if o.quality > -1 then Some(o.quality) else None,
      o.crop,
      if o.output.Some? then "-" else o.outputFile,
      if o.input.Some? || o.inputImage.Some? then FromStdin else FromFile(o.inputFile)))
    ensures Plan(o, encodePng).value.stdin ==
      if o.input.Some? then o.input else if o.inputImage.Some? then Some(encodePng(o.inputImage.value).value) else None
    ensures Plan(o, encodePng).value.stdoutSink == o.output
  {
    var out := ResolveOutput(o).value;
    var inp := InputSetup(o, encodePng).value;
    var q := if o.quality > -1 then Some(o.quality) else None;
    var tail := ["-o", out] + inp.args;
    var rest := CropArgs(o.crop) + tail;
    ParseTailOf(q, o.crop, out, inp.args);
    ParseCropOf(q, o.crop, tail);
    ParseArgsOf(o.quality, rest);
    assert Plan(o, encodePng).value.args == QualityArgs(o.quality) + rest;
  }

  /**
   * The errors of `Run` and their order: a missing output is reported before a
   * missing input, a failed PNG encoding only when the image is the input in use.
   */
  lemma PlanErrors(o: Options, encodePng: Image -> Result<Reader, string>)
    ensures o.output.None? && o.outputFile == "" ==> Plan(o, encodePng) == Failure("Undefined output")
    ensures (o.output.Some? || o.outputFile != "") && o.input.None? && o.inputImage.None? && o.inputFile == ""
      ==> Plan(o, encodePng) == Failure("Undefined input")
    ensures (o.output.Some? || o.outputFile != "") && o.input.None? && o.inputImage.Some? && encodePng(o.inputImage.value).Failure?
      ==> Plan(o, encodePng) == Failure(encodePng(o.inputImage.value).error)
    ensures Plan(o, encodePng).Success? <==>
      ((o.output.Some? || o.outputFile != "") &&
       (o.input.Some? || (o.inputImage.Some? && encodePng(o.inputImage.value).Success?) || (o.inputImage.None? && o.inputFile != "")))
  {
  }

  /** A `cwebp` controller. */
  class CWebP {
    const bin: BinWrapper
    var inputFile: string
    var inputImage: Option<Image>
    var input: Option<Reader>
    var outputFile: string
    var output: Option<Writer>
    var quality: int
    var crop: Option<CropInfo>

    function Opts(): Options
      reads this
    {
      Options(inputFile, inputImage, input, outputFile, output, quality, crop)
    }

    ghost predicate Valid()
      reads this
    {
      WellFormed(Opts())
    }

    constructor (b: BinWrapper)
      ensures bin == b && Opts() == Defaults && Valid()
    {
      bin := b;
      inputFile, inputImage, input := "", None, None;
      outputFile, output := "", None;
      quality, crop := -1, None;
    }

    /** Reads from a file; clears the reader and image. */
    method InputFile(file: string)
      requires Valid()
      modifies this
      ensures Valid()
      ensures Opts() == old(Opts()).(inputFile := file, input := None, inputImage := None)
    {
      input := None;
      inputImage := None;
      inputFile := file;
    }

    /** Reads from a reader; clears the file and image. */
    method Input(reader: Option<Reader>)
      requires Valid()
      modifies this
      ensures Valid()
      ensures Opts() == old(Opts()).(inputFile := "", input := reader, inputImage := None)
    {
      inputFile := "";
      inputImage := None;
      input := reader;
    }

    /** Encodes an in-memory image; clears the file and reader. */
    method InputImage(img: Option<Image>)
      requires Valid()
      modifies this
      ensures Valid()
      ensures Opts() == old(Opts()).(inputFile := "", input := None, inputImage := img)
    {
      inputFile := "";
      input := None;
      inputImage := img;
    }

    /** Writes to a file; clears the writer. */
    method OutputFile(file: string)
      requires Valid()
      modifies this
      ensures Valid()
      ensures Opts() == old(Opts()).(outputFile := file, output := None)
    {
      output := None;
      outputFile := file;
    }

    /** Writes to a writer; clears the file. */
    method Output(writer: Option<Writer>)
      requires Valid()
      modifies this
      ensures Valid()
      ensures Opts() == old(Opts()).(outputFile := "", output := writer)
    {
      outputFile := "";
      output := writer;
    }

    /** Sets the quality, clamping values above 100. */
    method Quality(q: nat)
      requires Valid()
      modifies this
      ensures Valid() && 0 <= quality <= 100
      ensures Opts() == old(Opts()).(quality := if q > 100 then 100 else q)
    {
      var clamped := q;
      if clamped > 100 {
        clamped := 100;
      }
      quality := clamped;
    }

    /** Replaces the crop rectangle; nothing is checked here. */
    method Crop(x: int, y: int, width: int, height: int)
      requires Valid()
      modifies this
      ensures Valid()
      ensures Opts() == old(Opts()).(crop := Some(CropInfo(x, y, width, height)))
    {
      crop := Some(CropInfo(x, y, width, height));
    }

    /** Drops the crop and the quality; inputs and outputs stay. */
    method Reset()
      requires Valid()
      modifies this
      ensures Valid()
      ensures Opts() == old(Opts()).(crop := None, quality := -1)
    {
      crop := None;
      quality := -1;
    }

    /** The first two steps of `Run`: appends `-q` when the quality is set, then `-crop` when a crop is set. */
    method AddOptionArgs()
      modifies bin`args
      ensures bin.args == old(bin.args) + (QualityArgs(quality) + CropArgs(crop))
    {
      if quality > -1 {
        bin.Arg(["-q", FormatInt(quality)]);
      }
      if crop.Some? {
        var c := crop.value;
        bin.Arg(["-crop", FormatInt(c.x), FormatInt(c.y), FormatInt(c.width), FormatInt(c.height)]);
      }
    }

    /** `getOutput`, on this controller's fields. */
    method GetOutput() returns (out: string, err: Option<string>)
      ensures ResolveOutput(Opts()).Success? ==> out == ResolveOutput(Opts()).value && err == None
      ensures ResolveOutput(Opts()).Failure? ==> out == "" && err == Some("Undefined output")
    {
      if output.Some? {
        return "-", None;
      } else if outputFile != "" {
        return outputFile, None;
      } else {
        return "", Some("Undefined output");
      }
    }

    /** `setInput`: appends the input arguments and installs stdin, or fails without changing anything. */
    method SetInput(encodePng: Image -> Result<Reader, string>) returns (err: Option<string>)
      modifies bin`args, bin`stdin
      ensures InputSetup(Opts(), encodePng).Failure? ==>
        err == Some(InputSetup(Opts(), encodePng).error) && bin.args == old(bin.args) && bin.stdin == old(bin.stdin)
      ensures InputSetup(Opts(), encodePng).Success? ==>
        err == None &&
        bin.args == old(bin.args) + InputSetup(Opts(), encodePng).value.args &&
        bin.stdin == InputSetup(Opts(), encodePng).value.stdin.Or(old(bin.stdin))
    {
      if input.Some? {
        bin.Arg(["--", "-"]);
        bin.StdIn(input.value);
      } else if inputImage.Some? {
        var r := encodePng(inputImage.value);
        if r.Failure? {
          return Some(r.error);
        }
        bin.Arg(["--", "-"]);
        bin.StdIn(r.value);
      } else if inputFile != "" {
        bin.Arg([inputFile]);
      } else {
        return Some("Undefined input");
      }
      return None;
    }

    /**
     * Builds the argument list, starts `cwebp` once setup succeeds and reports
     * its failure with stderr appended. The options are left as they were; the
     * wrapper's arguments, stdin and sink are reset on every path.
     */
    method Run(encodePng: Image -> Result<Reader, string>, outcome: ExecOutcome) returns (err: Option<string>)
      modifies bin`args, bin`stdin, bin`stdoutSink, bin`stdout, bin`stderr, bin`launched
      ensures unchanged(this)
      ensures bin.Idle()
      ensures Plan(Opts(), encodePng).Failure? ==>
        err == Some(Plan(Opts(), encodePng).error) && bin.launched == old(bin.launched)
      ensures Plan(Opts(), encodePng).Success? ==>
        bin.launched == old(bin.launched) + [old(bin.Prepared(Plan(Opts(), encodePng).value))] &&
        err == RunError(outcome)
    {
      ghost var o := Opts();
      ghost var before := bin.args;
      ghost var prepared := if Plan(o, encodePng).Success? then bin.Prepared(Plan(o, encodePng).value) else bin.Prepared(Request([], None, None));
      PlanSteps(o, encodePng);
      AddOptionArgs();
      var out, outErr := GetOutput();
      if outErr.Some? {
        bin.Reset();
        return outErr;
      }
      bin.Arg(["-o", out]);
      err := SetInput(encodePng);
      if err.Some? {
        bin.Reset();
        return;
      }
      if output.Some? {
        bin.SetStdOut(output.value);
      }
      ghost var req := Plan(o, encodePng).value;
      ghost var flags := QualityArgs(o.quality) + CropArgs(o.crop);
      assert req.args == (flags + ["-o", out]) + InputSetup(o, encodePng).value.args;
      AppendAssoc(before, flags, ["-o", out], InputSetup(o, encodePng).value.args);
      assert bin.args + [] == before + req.args;
      var runErr := bin.Run([], outcome);
      assert bin.launched == old(bin.launched) + [prepared];
      if runErr.Some? {
        err := Some(runErr.value + ". " + bin.stderr);
      }
      bin.Reset();
    }

    /** The version of the `cwebp` binary. */
    method Version(outcome: ExecOutcome) returns (v: string, err: Option<string>)
      modifies bin`args, bin`stdin, bin`stdoutSink, bin`stdout, bin`stderr, bin`launched
      ensures bin.launched == old(bin.launched) + [Invocation(bin.execPath, ["-version"], None, None)]
      ensures outcome.Exited? ==> err == None && v == CleanVersion(outcome.stdout)
      ensures outcome.Failed? ==> err == Some(outcome.err) && v == ""
      ensures bin.args == [] && bin.stdin == None && bin.stdoutSink == None
      ensures outcome.Exited? ==> bin.stdout == outcome.stdout && bin.stderr == ""
      ensures outcome.Failed? ==> bin.stdout == "" && bin.stderr == outcome.stderr
    {
      v, err := Webpbin.Version(bin, outcome);
    }
  }

  /** `NewCWebP`: a fresh controller on a fresh wrapper for the `cwebp` executable. */
  method NewCWebP(g: Globals, env: Env, optionFuncs: seq<OptionFunc>) returns (c: CWebP)
    modifies g
    ensures fresh(c) && fresh(c.bin) && c.Valid() && c.Opts() == Defaults
    ensures c.bin.execPath == "cwebp" && c.bin.Idle() && c.bin.launched == []
    ensures g.Current() == ApplyAll(EnvOverlay(old(g.Current()), env), optionFuncs)
    ensures c.bin.sources == if g.skipDownload then [] else Sources(g.libwebpVersion)
    ensures c.bin.strip == 2 && c.bin.dest == g.dest
  {
    var b := CreateBinWrapper(g, env, optionFuncs);
    c := new CWebP(b);
    b.ExecPath("cwebp");
  }
}
