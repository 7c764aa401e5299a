# go-webp-wrap: the command-building core, in Dafny

This project models the Go package `webpbin`, which converts images to and from
WebP by driving the `cwebp` and `dwebp` command-line tools. The model covers the
part that decides *what* gets run:

- the `CWebP` controller (`cwebp.dfy`, module `Cwebp`): exclusive input slots
  (file, reader, image), exclusive output slots (file, writer), quality clamped
  to 100 with -1 meaning "unset", an optional crop box, and the argument list
  `Run` builds, with its errors "Undefined output" and "Undefined input";
- the `DWebP` controller (`dwebp.dfy`, module `Dwebp`): the same setters, an
  output resolver that never fails, the argument list, how a failed run is
  classified as cancelled or as a tool failure, and the rule that an image is
  returned only when no output was requested;
- the package configuration (`webpbin.dfy`, module `Webpbin`): the three globals
  and their defaults, the environment overlay, the option functions, the
  platform check, the table of eight download URLs, and how `-version`
  output is cleaned;
- the entry points `Encoder.Encode`, `Encode`, `Decode` and `DecodeWithContext`
  (`encoder.dfy`, `decoder.dfy`), as fixed compositions of the controllers.

Both controllers are classes with the Go struct's fields. Their methods are
proved against pure functions of the option fields: `Plan` gives the arguments,
stdin and stdout sink that `Run` adds, or the error it returns first. The partner
of each `Plan` is a parser for the command line. `PlanRoundTrip` proves that
parsing the built argument list gives back exactly the options that were set.

The external `go-binwrapper` library is modelled by its interface only
(`binwrapper.dfy`). The model assumes that `Reset` clears the arguments, stdin,
stdout sink and captured output. It also assumes that `Run(extra...)` starts the
configured command with `extra` appended. Every attempted start is recorded in
the field `launched`, including one that fails before a process exists (a failed
lookup or download inside the library). That record lets each contract say
exactly which command would be attempted, or that nothing is. The model does not run processes. What a process does
is an `ExecOutcome` parameter: exit with its stdout, or fail with an error and
stderr. PNG encoding and decoding are function parameters that may fail. The
environment, `/etc/issue`, `GOOS` and `GOARCH` are parameters too. `fmt`'s `%d`
is `Decimal.FormatInt`, proved inverse to `Decimal.ParseInt`.

Some behaviours of the code worth knowing:
- with no output set, `CWebP.Run` fails with "Undefined output" (cwebp.go:207-215);
- `version` removes only `\n` and `\r` from the tool's output (webpbin.go:144-145);
- the crop box is passed to the tool unchecked, negative values included (cwebp.go:128-131);
- `Run` resets only the wrapper (cwebp.go:136) and never calls `CWebP.Reset`
  (cwebp.go:175-179), so quality and crop persist from one run to the next.

## Model

| member | source | states |
|---|---|---|
| Decimal.FormatNat | cwebp.go:139-143 | `%d` of a natural number is a non-empty digit string with no leading zero, starting with '0' only for zero |
| Decimal.FormatInt | cwebp.go:139-143 | `%d` of an int is non-empty and starts with '-' exactly when the number is negative |
| Decimal.ParseFormatInt | cwebp.go:139-143 | parsing the `%d` rendering of any integer gives the integer back |
| Decimal.FormatParseInt | cwebp.go:139-143 | a string that parses is the `%d` rendering of its value, so the rendering is injective |
| Webpbin.Globals.constructor | webpbin.go:15-17 | the defaults are skip-download false, destination ".bin/webp", version "1.5.0" |
| Webpbin.EnvOverlay | webpbin.go:35-49 | the overlay never clears skip; a non-empty VENDOR_PATH / LIBWEBP_VERSION replaces the destination / version, and otherwise each is kept |
| Webpbin.Globals.LoadDefaultFromEnv | webpbin.go:35-49 | the globals become the environment overlay of their old values |
| Webpbin.EnvOverlaySkip | webpbin.go:36-38 | skip is set afterwards iff it was set before or SKIP_DOWNLOAD is exactly "true"; it is never cleared |
| Webpbin.EnvOverlayEmpty | webpbin.go:40-46 | empty VENDOR_PATH / LIBWEBP_VERSION leave destination / version unchanged; applying the overlay twice equals once |
| Webpbin.ApplyOption | webpbin.go:21-33 | SetSkipDownload sets only the skip flag, SetVendorPath only the destination; the version is never touched |
| Webpbin.ApplyAll | webpbin.go:68-72 | applying options in order never changes the version; options that never set a global leave it as it was |
| Webpbin.Globals.Apply | webpbin.go:21-33 | SetSkipDownload changes only the skip flag, SetVendorPath only the destination; the version is never touched |
| Webpbin.LastSetterWins | webpbin.go:68-72 | after the options, each global holds the value of the last option setting it, or its previous value; the version is unchanged |
| Webpbin.DetectSkip | webpbin.go:51-61 | skip is set afterwards iff it was set before, or the arch is "arm", or the OS is linux and a readable /etc/issue contains "alpine" after lower-casing; otherwise it is unchanged |
| Webpbin.ToLower | webpbin.go:57 | the lowered text has the same length, contains no upper-case ASCII letter, and keeps every character that is not one |
| Webpbin.ToLowerIdempotent | webpbin.go:57 | lower-casing twice equals lower-casing once |
| Webpbin.Globals.DetectUnsupportedPlatforms | webpbin.go:51-61 | only the skip flag changes, to the platform-check value |
| Webpbin.DetectSkipMonotone | webpbin.go:51-61 | the check never clears skip, always sets it on arch "arm", leaves it unchanged off linux, and is idempotent |
| Webpbin.DetectAlpine | webpbin.go:54-59 | on linux, an /etc/issue containing "alpine" in any ASCII letter case forces skip |
| Webpbin.Contains | webpbin.go:57 | true iff the pattern occurs at some position of the text |
| Webpbin.Sources | webpbin.go:74-115 | the table has exactly eight sources |
| Webpbin.SourcesTable | webpbin.go:74-115 | the OS/arch pairs are distinct; every URL starts with base + "libwebp-" + version; linux arm64 and aarch64 share the aarch64 archive; linux arm has none |
| Webpbin.CreateBinWrapper | webpbin.go:63-118 | the environment is applied first and then the options in order; 8 sources are registered unless skip is set, otherwise none; Strip(2) and Dest(current destination) |
| Webpbin.RemoveChar | webpbin.go:144-145 | `strings.Replace(s, c, "", -1)`: the result has no `c`, no character not in the input, and is no longer |
| Webpbin.CleanVersion | webpbin.go:143-146 | the cleaned version contains neither '\n' nor '\r' |
| Webpbin.CleanVersionKeepsRest | webpbin.go:143-146 | cleaning equals keeping every character other than '\n' and '\r', in order |
| Webpbin.CleanVersionIdentity | webpbin.go:143-146 | text without line breaks is returned unchanged |
| Webpbin.Version | webpbin.go:135-147 | starts the tool with exactly ["-version"]; on failure returns "" and the error, otherwise the cleaned stdout; afterwards the wrapper has no arguments, stdin or sink and holds the run's captured stdout and stderr |
| Cwebp.ResolveOutput | cwebp.go:207-215 | output resolves iff a writer or a non-empty file is set: "-" for a writer, else the file; the target is never empty; otherwise the error is "Undefined output" |
| Cwebp.QualityArgs | cwebp.go:138-140 | no arguments iff quality is -1 or less; otherwise "-q" and a number that parses back to the quality |
| Cwebp.CropArgs | cwebp.go:142-144 | no arguments iff no crop; otherwise "-crop" and four numbers that parse back to x, y, width, height |
| Cwebp.InputSetup | cwebp.go:183-203 | input resolves iff a reader is set, or an image whose PNG encoding succeeds, or (no image) a non-empty file; stream input is "-- -" with a stdin, a file is its own argument; a reader always wins; with neither stream the error is "Undefined input" |
| Cwebp.Plan | cwebp.go:135-171 | setup succeeds iff output and input resolve; a missing output is reported before any input error; stdin is the input's, the sink is the writer |
| Cwebp.CWebP.GetOutput | cwebp.go:207-215 | returns the resolved target with no error, or "" with "Undefined output" |
| Cwebp.PlanRoundTrip | cwebp.go:135-171 | the built arguments parse back to: quality iff set, the crop verbatim, the output ("-" for a writer), stdin input for reader or image, else the file; stdin is the reader, else the PNG of the image; the sink is the writer |
| Cwebp.PlanErrors | cwebp.go:146-158 | a missing output is reported before a missing input; a PNG failure only when the image is the input in use; setup succeeds exactly when output and input resolve |
| Cwebp.RunError | cwebp.go:164-168 | a run error is reported iff the process failed; its message starts with the run error and ". " and ends with the captured stderr verbatim |
| Cwebp.CWebP.constructor | cwebp.go:40-44 | a new controller has no input or output and quality -1 |
| Cwebp.NewCWebP | cwebp.go:40-48 | a fresh controller with defaults, executable "cwebp", nothing started, configured by CreateBinWrapper |
| Cwebp.CWebP.InputFile | cwebp.go:59-64 | sets the file and clears the reader and image |
| Cwebp.CWebP.Input | cwebp.go:69-74 | sets the reader and clears the file and image |
| Cwebp.CWebP.InputImage | cwebp.go:79-84 | sets the image and clears the file and reader |
| Cwebp.CWebP.OutputFile | cwebp.go:89-93 | sets the output file and clears the writer |
| Cwebp.CWebP.Output | cwebp.go:98-102 | sets the writer and clears the output file |
| Cwebp.CWebP.Quality | cwebp.go:110-117 | stores min(q, 100), so the quality lies in 0..100; nothing else changes |
| Cwebp.CWebP.Crop | cwebp.go:128-131 | replaces the crop with the four integers verbatim, negatives included |
| Cwebp.CWebP.Reset | cwebp.go:175-179 | crop becomes unset and quality -1; inputs and outputs stay |
| Cwebp.CWebP.AddOptionArgs | cwebp.go:138-144 | appends "-q Q" when quality > -1, then "-crop X Y W H" when a crop is set |
| Cwebp.CWebP.SetInput | cwebp.go:183-203 | appends "-- -" with the reader or the image's PNG as stdin (reader first), else the file; on error appends nothing |
| Cwebp.CWebP.Run | cwebp.go:135-171 | on a setup error returns it and starts nothing; otherwise starts exactly the planned command once and reports its failure with stderr; options unchanged, wrapper reset on every path |
| Cwebp.CWebP.Version | cwebp.go:52-54 | the version of the cwebp binary, as Webpbin.Version, with the same wrapper state afterwards |
| Dwebp.ResolveOutput | dwebp.go:157-162 | never fails: the output file if non-empty, otherwise "-", even with a writer |
| Dwebp.InputSetup | dwebp.go:143-153 | input resolves iff a reader or a non-empty file is set; stdin is the reader; "-- -" exactly for a reader, else the file; otherwise "undefined input" |
| Dwebp.Plan | dwebp.go:97-106 | setup succeeds iff input resolves, else "failed to set input: " and the input error; the arguments start with "-o" and the resolved output; stdin is the reader, the sink the writer |
| Dwebp.DWebP.GetOutput | dwebp.go:157-162 | returns the resolved output |
| Dwebp.PlanRoundTrip | dwebp.go:97-106 | the arguments parse back to the output and the input route ("-- -" for a reader, else the file); stdin is the reader, the sink the writer |
| Dwebp.PlanErrors | dwebp.go:104-106 | setup fails exactly when no input is set, with "failed to set input: undefined input" |
| Dwebp.FailureMessage | dwebp.go:120-128 | the error starts with "operation cancelled: " followed by the context's error iff cancellation was observed; otherwise it starts with "dwebp command failed: " and ends with the stderr verbatim |
| Dwebp.Finish | dwebp.go:120-138 | an image never comes with an error; a failed run gives no image and the classified failure message; neither image nor error exactly when the run succeeded with an output requested |
| Dwebp.FinishRules | dwebp.go:120-138 | an image is returned iff the run succeeded, no output was requested and stdout decodes; never with an error; with an output a success returns neither; a success ignores the context; a background context never gives a cancellation error |
| Dwebp.DWebP.constructor | dwebp.go:31-37 | a new controller has no input or output |
| Dwebp.NewDWebP | dwebp.go:31-37 | a fresh controller, executable "dwebp", nothing started, configured by CreateBinWrapper |
| Dwebp.DWebP.InputFile | dwebp.go:42-46 | sets the file and clears the reader |
| Dwebp.DWebP.Input | dwebp.go:51-55 | sets the reader and clears the file |
| Dwebp.DWebP.OutputFile | dwebp.go:60-64 | sets the output file and clears the writer |
| Dwebp.DWebP.Output | dwebp.go:69-73 | sets the writer and clears the output file |
| Dwebp.DWebP.SetInput | dwebp.go:143-153 | appends "-- -" with the reader as stdin, else the file; otherwise "undefined input" and nothing appended |
| Dwebp.DWebP.RunWithContext | dwebp.go:94-139 | with no input returns the set-input error and starts nothing; otherwise starts exactly the planned command once and returns what Finish gives; options unchanged, wrapper reset on every path |
| Dwebp.DWebP.Run | dwebp.go:85-87 | RunWithContext with a context that is never cancelled |
| Dwebp.DWebP.Version | dwebp.go:77-79 | the version of the dwebp binary, as Webpbin.Version, with the same wrapper state afterwards |
| Encoding.EncodeLaunches | encoder.go:31-37 | an encode starts at most one process, never with "-crop" |
| Encoding.EncodeError | encoder.go:31-37 | an encode succeeds iff writer and image are present, PNG encoding succeeds and the tool exits normally |
| Encoding.Encoder.Encode | encoder.go:31-37 | on a fresh controller, starts exactly cwebp -q min(Q,100) -o - -- - with the image's PNG as stdin and the writer as sink, or nothing; "Undefined output" without a writer |
| Encoding.Encode | encoder.go:49-52 | the same with quality 75: cwebp -q 75 -o - -- - |
| Decoding.Wrap | decoder.go:38-41 | an error is kept, prefixed with "failed to decode WebP image: ", and comes with no image; success passes through |
| Decoding.DecodeWithContext | decoder.go:37-43 | starts exactly dwebp -o - -- - with the reader as stdin, or nothing without a reader; a successful run whose stdout decodes returns that image |
| Decoding.Decode | decoder.go:22-24 | DecodeWithContext with a background context; never a cancellation error |

## Left out

- Process execution (`BinWrapper.Run`, `Kill`, stdin/stdout piping, stderr capture) belongs to `go-binwrapper`, which is not part of this model. Its outcome is the `ExecOutcome` parameter. Stdout, stderr and `/etc/issue` are modelled as text, not bytes.
- The cancellation watcher goroutine and its `done` channel are concurrency. They are reduced to a context value plus the flag `watcherDone`, which says whether the watcher had closed `done` when the run returned. The model does not capture that the watcher is never retired for a background context.
- PNG encoding (`createReaderFromImage`) and `png.Decode` are foreign calls. They are the function parameters `encodePng` and `decodePng`, and either may fail.
- `os.Getenv`, `os.ReadFile("/etc/issue")`, `runtime.GOOS` and `runtime.GOARCH` are inputs (`Env`, `Platform`).
- Downloading and extracting archives, and the effect of `Strip` and `Dest`, are network and filesystem work. Only the values registered on the wrapper are modelled.
- `AutoExe` is recorded as a flag only. In `go-binwrapper` it is understood to make `ExecPath` append ".exe" on Windows; the model assumes a non-Windows platform, so the executable names "cwebp" and "dwebp" that `NewCWebP`, `NewDWebP`, `Encode` and `Decode` pin down hold only off Windows.
- Errors are modelled by their text alone. Go's wrapped error chains are not: `errors.Is(err, context.Canceled)` holds for a cancelled decode (dwebp.go:124, decoder.go:40), and the PNG and exec errors stay wrapped with `%w`, whereas `CWebP.Run` flattens the run error with `errors.New` (cwebp.go:167). The model only distinguishes these by message prefix.
- Webpbin.DetectSkip: lower-cases ASCII letters only. Go's `bytes.ToLower` also maps other Unicode letters (U+0130 becomes 'i'), so a non-ASCII spelling of "alpine" is detected by the source but not by the model.
- Cwebp.CWebP.Quality: `uint` is modelled as an unbounded natural number. Clamping to 100 makes the width irrelevant.
- Cwebp.CWebP.Crop: Go's 64-bit `int` is modelled as an unbounded integer. `%d` of values outside the 64-bit range cannot occur in the source.
- The "failed to get output" branch of `DWebP.RunWithContext` is not modelled, because `getOutput` there never returns an error.
- The option functions' unused wrapper argument and their always-nil error are not modelled.
- A Go interface that holds a typed nil pointer is not modelled. Readers, writers and images are either `Some` handle or `None` (nil).
- Pixel contents of images and the behaviour of the `cwebp`/`dwebp` tools are not modelled.
