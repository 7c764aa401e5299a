/**
 * Package-level configuration of the wrappers: the three global settings, the
 * environment overlay, the option functions, the platform check, the table of
 * download sources and the cleaning of `-version` output.
 */
module Webpbin {
  import opened Wrappers
  import opened Binwrapper

  const DefaultDest := ".bin/webp"
  const DefaultVersion := "1.5.0"
  const Base := "https://storage.googleapis.com/downloads.webmproject.org/releases/webp/"

  /** The values of the globals `skipDownload`, `dest` and `libwebpVersion`. */
  datatype Settings = Settings(skipDownload: bool, dest: string, libwebpVersion: string)

  /** The two option functions the package offers. */
  datatype OptionFunc = SetSkipDownload(isSkipDownload: bool) | SetVendorPath(path: string)

  /** The process environment. */
  datatype Env = Env(vars: map<string, string>)

  /** `os.Getenv`: an unset variable reads as the empty string. */
  function Getenv(env: Env, key: string): string {
    if key in env.vars then env.vars[key] else ""
  }

  /** `runtime.GOOS`, `runtime.GOARCH` and the result of reading `/etc/issue` (None when the read fails). */
  datatype Platform = Platform(goos: string, goarch: string, etcIssue: Option<string>)

  /** What `loadDefaultFromENV` does to the settings. */
  function EnvOverlay(s: Settings, env: Env): (r: Settings)
    ensures s.skipDownload ==> r.skipDownload
    ensures r.dest == s.dest || (r.dest == Getenv(env, "VENDOR_PATH") && r.dest != "")
    ensures r.libwebpVersion == s.libwebpVersion || (r.libwebpVersion == Getenv(env, "LIBWEBP_VERSION") && r.libwebpVersion != "")
    ensures Getenv(env, "VENDOR_PATH") != "" ==> r.dest == Getenv(env, "VENDOR_PATH")
    ensures Getenv(env, "LIBWEBP_VERSION") != "" ==> r.libwebpVersion == Getenv(env, "LIBWEBP_VERSION")
  {
    var skip := if Getenv(env, "SKIP_DOWNLOAD") == "true" then true else s.skipDownload;
    var dest := if Getenv(env, "VENDOR_PATH") != "" then Getenv(env, "VENDOR_PATH") else s.dest;
    var version := if Getenv(env, "LIBWEBP_VERSION") != "" then Getenv(env, "LIBWEBP_VERSION") else s.libwebpVersion;
    Settings(skip, dest, version)
  }

  /** What one option function does to the settings. */
  function ApplyOption(s: Settings, opt: OptionFunc): (r: Settings)
    ensures r.libwebpVersion == s.libwebpVersion
    ensures opt.SetSkipDownload? ==> r.skipDownload == opt.isSkipDownload && r.dest == s.dest
    ensures opt.SetVendorPath? ==> r.dest == opt.path && r.skipDownload == s.skipDownload
  {
    match opt
    case SetSkipDownload(b) => s.(skipDownload := b)
    case SetVendorPath(p) => s.(dest := p)
  }

  /** The option functions applied in order, first to last. */
  function ApplyAll(s: Settings, opts: seq<OptionFunc>): (r: Settings)
    ensures r.libwebpVersion == s.libwebpVersion
    ensures (forall k :: 0 <= k < |opts| ==> opts[k].SetSkipDownload?) ==> r.dest == s.dest
    ensures (forall k :: 0 <= k < |opts| ==> opts[k].SetVendorPath?) ==> r.skipDownload == s.skipDownload
    decreases |opts|
  {
    if opts == [] then s else ApplyOption(ApplyAll(s, opts[..|opts| - 1]), opts[|opts| - 1])
  }

  /** The path of the last `SetVendorPath` among `opts`, searched from the front. */
  function LastVendorPath(opts: seq<OptionFunc>): Option<string> {
    if opts == [] then None
    else match LastVendorPath(opts[1..])
      case Some(p) => Some(p)
      case None => if opts[0].SetVendorPath? then Some(opts[0].path) else None
  }

  /** The flag of the last `SetSkipDownload` among `opts`, searched from the front. */
  function LastSkipDownload(opts: seq<OptionFunc>): Option<bool> {
    if opts == [] then None
    else match LastSkipDownload(opts[1..])
      case Some(b) => Some(b)
      case None => if opts[0].SetSkipDownload? then Some(opts[0].isSkipDownload) else None
  }

  lemma {:induction false} LastOfAppend(opts: seq<OptionFunc>, o: OptionFunc)
    ensures LastVendorPath(opts + [o]) == if o.SetVendorPath? then Some(o.path) else LastVendorPath(opts)
    ensures LastSkipDownload(opts + [o]) == if o.SetSkipDownload? then Some(o.isSkipDownload) else LastSkipDownload(opts)
    decreases |opts|
  {
    if opts != [] {
      assert (opts + [o])[1..] == opts[1..] + [o];
      LastOfAppend(opts[1..], o);
    } else {
      assert (opts + [o])[1..] == [];
    }
  }

  /**
   * The last setter wins: after the option functions, each global holds the value
   * of the last option that sets it, or its previous value if none does; the
   * version is never touched by an option.
   */
  lemma {:induction false} LastSetterWins(s: Settings, opts: seq<OptionFunc>)
    ensures ApplyAll(s, opts).dest == match LastVendorPath(opts) case Some(p) => p case None => s.dest
    ensures ApplyAll(s, opts).skipDownload == match LastSkipDownload(opts) case Some(b) => b case None => s.skipDownload
    ensures ApplyAll(s, opts).libwebpVersion == s.libwebpVersion
    decreases |opts|
  {
    if opts != [] {
      var init := opts[..|opts| - 1];
      var o := opts[|opts| - 1];
      assert opts == init + [o];
      LastSetterWins(s, init);
      LastOfAppend(init, o);
    }
  }

  /** The environment can only turn skipping on, never off, and only by the exact value "true". */
  lemma EnvOverlaySkip(s: Settings, env: Env)
    ensures EnvOverlay(s, env).skipDownload <==> s.skipDownload || Getenv(env, "SKIP_DOWNLOAD") == "true"
    ensures s.skipDownload ==> EnvOverlay(s, env).skipDownload
  {
  }

  /** Empty variables leave the destination and version unchanged; the overlay is idempotent. */
  lemma EnvOverlayEmpty(s: Settings, env: Env)
    ensures Getenv(env, "VENDOR_PATH") == "" ==> EnvOverlay(s, env).dest == s.dest
    ensures Getenv(env, "LIBWEBP_VERSION") == "" ==> EnvOverlay(s, env).libwebpVersion == s.libwebpVersion
    ensures EnvOverlay(EnvOverlay(s, env), env) == EnvOverlay(s, env)
  {
  }

  /** ASCII lower-casing of one character. */
  function LowerChar(c: char): (r: char)
    ensures !('A' <= r <= 'Z')
    ensures !('A' <= c <= 'Z') ==> r == c
    ensures 'A' <= c <= 'Z' ==> 'a' <= r <= 'z' && r as int - 'a' as int == c as int - 'A' as int
  {
    if 'A' <= c <= 'Z' then (c as int + 32) as char else c
  }

  /** `bytes.ToLower`, restricted to ASCII letters. */
  function ToLower(s: string): (r: string)
    ensures |r| == |s| && forall i :: 0 <= i < |s| ==> r[i] == LowerChar(s[i])
    ensures forall i :: 0 <= i < |r| ==> !('A' <= r[i] <= 'Z')
    ensures forall i :: 0 <= i < |s| && !('A' <= s[i] <= 'Z') ==> r[i] == s[i]
  {
    seq(|s|, i requires 0 <= i < |s| => LowerChar(s[i]))
  }

  /** Lower-casing twice is lower-casing once. */
  lemma ToLowerIdempotent(s: string)
    ensures ToLower(ToLower(s)) == ToLower(s)
  {
  }

  /** `sub` occurs in `s` starting at index `i`. */
  predicate OccursAt(s: string, sub: string, i: int) {
    0 <= i <= |s| - |sub| && s[i..i + |sub|] == sub
  }

  /** `bytes.Contains`: `sub` occurs somewhere in `s`. */
  function Contains(s: string, sub: string): (b: bool)
    ensures b <==> exists i :: OccursAt(s, sub, i)
    decreases |s|
  {
    if |s| < |sub| then false
    else if s[..|sub|] == sub then
      assert OccursAt(s, sub, 0);
      true
    else
      var r := Contains(s[1..], sub);
      assert forall i :: OccursAt(s[1..], sub, i) ==> OccursAt(s, sub, i + 1);
      assert forall i :: OccursAt(s, sub, i) ==> i >= 1 && OccursAt(s[1..], sub, i - 1);
      r
  }

  /** The value `DetectUnsupportedPlatforms` leaves in `skipDownload`. */
  function DetectSkip(skip: bool, p: Platform): (r: bool)
    ensures skip ==> r
    ensures p.goarch == "arm" ==> r
    ensures r && !skip ==> p.goarch == "arm" || p.goos == "linux"
    ensures r <==> (skip || p.goarch == "arm" ||
      (p.goos == "linux" && p.etcIssue.Some? && exists i :: OccursAt(ToLower(p.etcIssue.value), "alpine", i)))
  {
    if p.goarch == "arm" then true
    else if p.goos == "linux" && p.etcIssue.Some? && Contains(ToLower(p.etcIssue.value), "alpine") then true
    else skip
  }

  /** The platform check only ever turns skipping on, and applying it twice changes nothing more. */
  lemma DetectSkipMonotone(skip: bool, p: Platform)
    ensures skip ==> DetectSkip(skip, p)
    ensures p.goarch == "arm" ==> DetectSkip(skip, p)
    ensures p.goarch != "arm" && p.goos != "linux" ==> DetectSkip(skip, p) == skip
    ensures DetectSkip(DetectSkip(skip, p), p) == DetectSkip(skip, p)
  {
  }

  /** On linux, an `/etc/issue` naming Alpine in any letter case forces skipping. */
  lemma DetectAlpine(skip: bool, arch: string, before: string, word: string, after: string)
    requires ToLower(word) == "alpine"
    ensures DetectSkip(skip, Platform("linux", arch, Some(before + word + after)))
  {
    var text := before + word + after;
    var low := ToLower(text);
    var i := |before|;
    assert low[i..i + 6] == ToLower(word) by {
      forall k | 0 <= k < 6 ensures low[i..i + 6][k] == ToLower(word)[k] {
        assert text[i + k] == word[k];
      }
    }
    assert OccursAt(low, "alpine", i);
  }

  /** The archive URL for one release and platform suffix. */
  function ArchiveUrl(version: string, suffix: string): string {
    Base + "libwebp-" + version + suffix
  }

  /** The eight download sources `createBinWrapper` registers, in order. */
  function Sources(version: string): (srcs: seq<Src>)
    ensures |srcs| == 8
  {
    [ Src(ArchiveUrl(version, "-mac-arm64.tar.gz"), "darwin", "arm64"),
      Src(ArchiveUrl(version, "-mac-x86-64.tar.gz"), "darwin", "x64"),
      Src(ArchiveUrl(version, "-linux-x86-32.tar.gz"), "linux", "x86"),
      Src(ArchiveUrl(version, "-linux-x86-64.tar.gz"), "linux", "x64"),
      Src(ArchiveUrl(version, "-linux-aarch64.tar.gz"), "linux", "arm64"),
      Src(ArchiveUrl(version, "-linux-aarch64.tar.gz"), "linux", "aarch64"),
      Src(ArchiveUrl(version, "-windows-x64.zip"), "win32", "x64"),
      Src(ArchiveUrl(version, "-windows-x86.zip"), "win32", "x86") ]
  }

  /** The URL registered for an OS/architecture pair, if any. */
  function SourceFor(srcs: seq<Src>, os: string, arch: string): Option<string> {
    if srcs == [] then None
    else if srcs[0].os == os && srcs[0].arch == arch then Some(srcs[0].url)
    else SourceFor(srcs[1..], os, arch)
  }

  /**
   * Each registered pair occurs once; every URL names the pinned release; the
   * two 64-bit ARM spellings on linux share one archive; 32-bit ARM has none.
   */
  lemma SourcesTable(version: string)
    ensures forall i, j :: 0 <= i < j < 8 ==>
      (Sources(version)[i].os, Sources(version)[i].arch) != (Sources(version)[j].os, Sources(version)[j].arch)
    ensures forall i :: 0 <= i < 8 ==>
      Sources(version)[i].url[..|Base + "libwebp-" + version|] == Base + "libwebp-" + version
    ensures SourceFor(Sources(version), "linux", "arm64") == SourceFor(Sources(version), "linux", "aarch64")
      == Some(ArchiveUrl(version, "-linux-aarch64.tar.gz"))
    ensures SourceFor(Sources(version), "linux", "arm") == None
  {
    var s := Sources(version);
    var aarch := Some(ArchiveUrl(version, "-linux-aarch64.tar.gz"));
    assert SourceFor(s[5..], "linux", "aarch64") == aarch;
    assert SourceFor(s[4..], "linux", "arm64") == aarch;
    assert SourceFor(s[4..], "linux", "aarch64") == aarch;
    assert SourceFor(s[3..], "linux", "arm64") == aarch;
    assert SourceFor(s[2..], "linux", "arm64") == aarch;
    assert SourceFor(s[1..], "linux", "arm64") == aarch;
    assert SourceFor(s[3..], "linux", "aarch64") == aarch;
    assert SourceFor(s[2..], "linux", "aarch64") == aarch;
    assert SourceFor(s[1..], "linux", "aarch64") == aarch;
    assert SourceFor(s[8..], "linux", "arm") == None;
    assert SourceFor(s[7..], "linux", "arm") == None;
    assert SourceFor(s[6..], "linux", "arm") == None;
    assert SourceFor(s[5..], "linux", "arm") == None;
    assert SourceFor(s[4..], "linux", "arm") == None;
    assert SourceFor(s[3..], "linux", "arm") == None;
    assert SourceFor(s[2..], "linux", "arm") == None;
    assert SourceFor(s[1..], "linux", "arm") == None;
  }

  /** `strings.Replace(s, old, "", -1)` for a one-character `old`. */
  function RemoveChar(s: string, c: char): (r: string)
    ensures c !in r
    ensures forall x :: x in r ==> x in s
    ensures |r| <= |s|
  {
    if s == [] then [] else (if s[0] == c then [] else [s[0]]) + RemoveChar(s[1..], c)
  }

  /** The characters of `s` that are neither `\n` nor `\r`, in order. */
  function WithoutLineBreaks(s: string): string {
    if s == [] then []
    else if s[0] == '\n' || s[0] == '\r' then WithoutLineBreaks(s[1..])
    else [s[0]] + WithoutLineBreaks(s[1..])
  }

  /** What `version` makes of the tool's output: every `\n` removed, then every `\r`. */
  function CleanVersion(raw: string): (v: string)
    ensures '\n' !in v && '\r' !in v
  {
    RemoveChar(RemoveChar(raw, '\n'), '\r')
  }

  /** Cleaning keeps every other character, in order, and nothing else. */
  lemma {:induction false} CleanVersionKeepsRest(raw: string)
    ensures CleanVersion(raw) == WithoutLineBreaks(raw)
  {
    if raw != [] {
      CleanVersionKeepsRest(raw[1..]);
      var once := RemoveChar(raw[1..], '\n');
      assert CleanVersion(raw[1..]) == RemoveChar(once, '\r');
      if raw[0] == '\n' {
        assert RemoveChar(raw, '\n') == once;
      } else {
        assert RemoveChar(raw, '\n') == [raw[0]] + once;
        var t := [raw[0]] + once;
        assert t[0] == raw[0] && t[1..] == once;
        assert RemoveChar(t, '\r') == (if raw[0] == '\r' then [] else [raw[0]]) + RemoveChar(once, '\r');
      }
    }
  }

  /** Cleaning text that has no line breaks leaves it as it is. */
  lemma {:induction false} CleanVersionIdentity(raw: string)
    requires '\n' !in raw && '\r' !in raw
    ensures CleanVersion(raw) == raw
  {
    CleanVersionKeepsRest(raw);
    WithoutLineBreaksIdentity(raw);
  }

  lemma {:induction false} WithoutLineBreaksIdentity(s: string)
    requires '\n' !in s && '\r' !in s
    ensures WithoutLineBreaks(s) == s
  {
    if s != [] {
      assert s[0] in s;
      assert forall c :: c in s[1..] ==> c in s;
      WithoutLineBreaksIdentity(s[1..]);
    }
  }

  /** The package globals. */
  class Globals {
    var skipDownload: bool
    var dest: string
    var libwebpVersion: string

    function Current(): Settings
      reads this
    {
      Settings(skipDownload, dest, libwebpVersion)
    }

    /** The package's initial values. */
    constructor ()
      ensures Current() == Settings(false, DefaultDest, DefaultVersion)
    {
      skipDownload, dest, libwebpVersion := false, DefaultDest, DefaultVersion;
    }

    /** `loadDefaultFromENV`. */
    method LoadDefaultFromEnv(env: Env)
      modifies this
      ensures Current() == EnvOverlay(old(Current()), env)
    {
      if Getenv(env, "SKIP_DOWNLOAD") == "true" {
        skipDownload := true;
      }
      var path := Getenv(env, "VENDOR_PATH");
      if path != "" {
        dest := path;
      }
      var version := Getenv(env, "LIBWEBP_VERSION");
      if version != "" {
        libwebpVersion := version;
      }
    }

    /** Calls one option function (the `SetSkipDownload` or `SetVendorPath` closure). */
    method Apply(opt: OptionFunc)
      modifies this
      ensures Current() == ApplyOption(old(Current()), opt)
      ensures opt.SetSkipDownload? ==> dest == old(dest) && skipDownload == opt.isSkipDownload
      ensures opt.SetVendorPath? ==> skipDownload == old(skipDownload) && dest == opt.path
      ensures libwebpVersion == old(libwebpVersion)
    {
      match opt
      case SetSkipDownload(b) => skipDownload := b;
      case SetVendorPath(p) => dest := p;
    }

    /** `DetectUnsupportedPlatforms`. */
    method DetectUnsupportedPlatforms(p: Platform)
      modifies this
      ensures Current() == old(Current()).(skipDownload := DetectSkip(old(skipDownload), p))
    {
      if p.goarch == "arm" {
        skipDownload := true;
      } else if p.goos == "linux" {
        if p.etcIssue.Some? && Contains(ToLower(p.etcIssue.value), "alpine") {
          skipDownload := true;
        }
      }
    }
  }

  /**
   * `createBinWrapper`: the environment first, then the option functions in
   * order, then the download sources unless skipping, then `Strip(2)` and
   * `Dest(dest)`.
   */
  method CreateBinWrapper(g: Globals, env: Env, optionFuncs: seq<OptionFunc>) returns (b: BinWrapper)
    modifies g
    ensures fresh(b)
    ensures g.Current() == ApplyAll(EnvOverlay(old(g.Current()), env), optionFuncs)
    ensures b.sources == if g.skipDownload then [] else Sources(g.libwebpVersion)
    ensures b.strip == 2 && b.dest == g.dest && b.autoExe
    ensures b.execPath == "" && b.Idle() && b.launched == []
  {
    b := new BinWrapper();
    b.AutoExe();
    g.LoadDefaultFromEnv(env);
    ghost var start := g.Current();
    var i := 0;
    while i < |optionFuncs|
      modifies g
      invariant 0 <= i <= |optionFuncs|
      invariant g.Current() == ApplyAll(start, optionFuncs[..i])
    {
      assert optionFuncs[..i + 1][..i] == optionFuncs[..i];
      g.Apply(optionFuncs[i]);
      i := i + 1;
    }
    assert optionFuncs[..i] == optionFuncs;
    if !g.skipDownload {
      var srcs := Sources(g.libwebpVersion);
      for j := 0 to |srcs|
        modifies b`sources
        invariant b.sources == srcs[..j]
      {
        b.Src(srcs[j]);
      }
    }
    b.Strip(2);
    b.Dest(g.dest);
  }

  /**
   * `version`: resets the wrapper, runs it with `-version` alone and returns its
   * output without line breaks, or the empty string and the run's error.
   */
  method Version(b: BinWrapper, outcome: ExecOutcome) returns (v: string, err: Option<string>)
    modifies b`args, b`stdin, b`stdoutSink, b`stdout, b`stderr, b`launched
    ensures b.launched == old(b.launched) + [Invocation(b.execPath, ["-version"], None, None)]
    ensures outcome.Exited? ==> err == None && v == CleanVersion(outcome.stdout)
    ensures outcome.Failed? ==> err == Some(outcome.err) && v == ""
    ensures b.args == [] && b.stdin == None && b.stdoutSink == None
    ensures outcome.Exited? ==> b.stdout == outcome.stdout && b.stderr == ""
    ensures outcome.Failed? ==> b.stdout == "" && b.stderr == outcome.stderr
  {
    b.Reset();
    err := b.Run(["-version"], outcome);
    assert b.args + ["-version"] == ["-version"];
    if err.Some? {
      return "", err;
    }
    v := b.stdout;
    v := RemoveChar(v, '\n');
    v := RemoveChar(v, '\r');
  }
}
