/**
 * The interface of the `go-binwrapper` library as the controllers use it: a
 * builder of one external command (executable, arguments, standard input,
 * standard-output sink, download sources). The library itself is not part of
 * this model; what a process does when started is supplied by the caller as an
 * `ExecOutcome`, and every attempted start is recorded in `launched`, including
 * one that fails before a process exists (a failed lookup or download).
 */
module Binwrapper {
  import opened Wrappers
  import opened Handles

  /** A download source: the archive for one OS/architecture pair. */
  datatype Src = Src(url: string, os: string, arch: string)

  /** What a started process did: exited with status 0 and printed `stdout`, or failed. */
  datatype ExecOutcome = Exited(stdout: string) | Failed(err: string, stderr: string)

  /** One attempted start: the executable, its arguments, its stdin and its stdout sink. */
  datatype Invocation = Invocation(execPath: string, args: seq<string>, stdin: Option<Reader>, stdoutSink: Option<Writer>)

  /** What a controller adds to the wrapper before starting it: arguments, and a stdin or sink if it installs one. */
  datatype Request = Request(args: seq<string>, stdin: Option<Reader>, stdoutSink: Option<Writer>)

  class BinWrapper {
    var execPath: string
    var autoExe: bool
    var args: seq<string>
    var stdin: Option<Reader>
    var stdoutSink: Option<Writer>
    var sources: seq<Src>
    var strip: nat
    var dest: string
    /** Captured standard output and standard error of the last run. */
    var stdout: string
    var stderr: string
    /** Every start this wrapper has attempted, oldest first, whether or not a process came into existence. */
    var launched: seq<Invocation>

    /** `binwrapper.NewBinWrapper()`: nothing configured, nothing started. */
    constructor ()
      ensures execPath == "" && !autoExe && args == [] && stdin == None && stdoutSink == None
      ensures sources == [] && strip == 0 && dest == "" && stdout == "" && stderr == ""
      ensures launched == []
    {
      execPath, autoExe, args, stdin, stdoutSink := "", false, [], None, None;
      sources, strip, dest, stdout, stderr := [], 0, "", "", "";
      launched := [];
    }

    /** Nothing left over from a previous run: no arguments, stdin, sink or captured output. */
    predicate Idle()
      reads this
    {
      args == [] && stdin == None && stdoutSink == None && stdout == "" && stderr == ""
    }

    /** The invocation that `Run` would start once `req` has been applied to this wrapper. */
    function Prepared(req: Request): (inv: Invocation)
      reads this
      ensures |inv.args| == |args| + |req.args|
      ensures inv.args[..|args|] == args && inv.args[|args|..] == req.args
    {
      Invocation(execPath, args + req.args, req.stdin.Or(stdin), req.stdoutSink.Or(stdoutSink))
    }

    method AutoExe()
      modifies this`autoExe
      ensures autoExe
    {
      autoExe := true;
    }

    method ExecPath(path: string)
      modifies this`execPath
      ensures execPath == path
    {
      execPath := path;
    }

    /** Appends arguments; earlier ones are kept. */
    method Arg(a: seq<string>)
      modifies this`args
      ensures args == old(args) + a
    {
      args := args + a;
    }

    method StdIn(r: Reader)
      modifies this`stdin
      ensures stdin == Some(r)
    {
      stdin := Some(r);
    }

    method SetStdOut(w: Writer)
      modifies this`stdoutSink
      ensures stdoutSink == Some(w)
    {
      stdoutSink := Some(w);
    }

    /** Registers one more download source. */
    method Src(s: Src)
      modifies this`sources
      ensures sources == old(sources) + [s]
    {
      sources := sources + [s];
    }

    method Strip(n: nat)
      modifies this`strip
      ensures strip == n
    {
      strip := n;
    }

    method Dest(d: string)
      modifies this`dest
      ensures dest == d
    {
      dest := d;
    }

    /** Drops the arguments, stdin, stdout sink and captured output of the previous run. */
    method Reset()
      modifies this`args, this`stdin, this`stdoutSink, this`stdout, this`stderr
      ensures Idle()
    {
      args, stdin, stdoutSink, stdout, stderr := [], None, None, "", "";
    }

    /**
     * Starts the executable with the configured arguments followed by `extra`
     * and waits for it; `outcome` is what happened, which may be a failure
     * before any process exists.
     */
    method Run(extra: seq<string>, outcome: ExecOutcome) returns (err: Option<string>)
      modifies this`stdout, this`stderr, this`launched
      ensures launched == old(launched) + [Invocation(execPath, args + extra, stdin, stdoutSink)]
      ensures err.None? <==> outcome.Exited?
      ensures outcome.Exited? ==> stdout == outcome.stdout && stderr == ""
      ensures outcome.Failed? ==> err == Some(outcome.err) && stdout == "" && stderr == outcome.stderr
    {
      launched := launched + [Invocation(execPath, args + extra, stdin, stdoutSink)];
      match outcome
      case Exited(out) =>
        stdout, stderr, err := out, "", None;
      case Failed(e, errText) =>
        stdout, stderr, err := "", errText, Some(e);
    }
  }
}
