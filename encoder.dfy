/** The encoding entry points: fixed compositions over a fresh `cwebp` controller. */
module Encoding {
  import opened Wrappers
  import opened Handles
  import opened Decimal
  import opened Binwrapper
  import opened Webpbin
  import opened Cwebp

  /** The one process an encode of `m` into `w` starts, if setup succeeds. */
  function EncodeLaunches(quality: nat, w: Option<Writer>, m: Option<Image>,
                          encodePng: Image -> Result<Reader, string>): (launched: seq<Invocation>)
    ensures |launched| <= 1
    ensures forall i :: 0 <= i < |launched| ==> "-crop" !in launched[i].args
  {
    if w.Some? && m.Some? && encodePng(m.value).Success? then
      var q := FormatInt(if quality > 100 then 100 else quality);
      assert q[0] != '-';
      [Invocation("cwebp", ["-q", q, "-o", "-", "--", "-"], Some(encodePng(m.value).value), w)]
    else []
  }

  /** The error an encode returns: missing writer first, then missing image, then PNG encoding, then the run. */
  function EncodeError(w: Option<Writer>, m: Option<Image>, encodePng: Image -> Result<Reader, string>,
                       outcome: ExecOutcome): (err: Option<string>)
    ensures err.None? <==> w.Some? && m.Some? && encodePng(m.value).Success? && outcome.Exited?
  {
    if w.None? then Some("Undefined output")
    else if m.None? then Some("Undefined input")
    else if encodePng(m.value).Failure? then Some(encodePng(m.value).error)
    else RunError(outcome)
  }

  /** `Encoder`: the quality used by its `Encode`. */
  datatype Encoder = Encoder(quality: nat) {

    /**
     * `Encoder.Encode`: `NewCWebP`, `Quality`, `InputImage`, `Output`, `Run`
     * on a fresh controller. `launched` is every process it started.
     */
    method Encode(g: Globals, env: Env, w: Option<Writer>, m: Option<Image>,
                  encodePng: Image -> Result<Reader, string>, outcome: ExecOutcome)
      returns (err: Option<string>, launched: seq<Invocation>)
      modifies g
      ensures launched == EncodeLaunches(quality, w, m, encodePng)
      ensures err == EncodeError(w, m, encodePng, outcome)
      ensures g.Current() == EnvOverlay(old(g.Current()), env)
    {
      var c := NewCWebP(g, env, []);
      c.Quality(quality);
      c.InputImage(m);
      c.Output(w);
      PlanErrors(c.Opts(), encodePng);
      if w.Some? && m.Some? && encodePng(m.value).Success? {
        assert Plan(c.Opts(), encodePng).value.args ==
          ["-q", FormatInt(if quality > 100 then 100 else quality), "-o", "-", "--", "-"];
      }
      err := c.Run(encodePng, outcome);
      launched := c.bin.launched;
    }
  }

  /** The package-level `Encode`: an `Encoder` with quality 75. */
  method Encode(g: Globals, env: Env, w: Option<Writer>, m: Option<Image>,
                encodePng: Image -> Result<Reader, string>, outcome: ExecOutcome)
    returns (err: Option<string>, launched: seq<Invocation>)
    modifies g
    ensures launched == if w.Some? && m.Some? && encodePng(m.value).Success? then
      [Invocation("cwebp", ["-q", "75", "-o", "-", "--", "-"], Some(encodePng(m.value).value), w)] else []
    ensures err == EncodeError(w, m, encodePng, outcome)
    ensures g.Current() == EnvOverlay(old(g.Current()), env)
  {
    var e := Encoder(75);
    err, launched := e.Encode(g, env, w, m, encodePng, outcome);
    assert FormatInt(75) == "75";
  }
}
