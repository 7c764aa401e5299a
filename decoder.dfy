/** The decoding entry points: fixed compositions over a fresh `dwebp` controller. */
module Decoding {
  import opened Wrappers
  import opened Handles
  import opened Binwrapper
  import opened Webpbin
  import opened Dwebp

  const DecodePrefix := "failed to decode WebP image: "

  /** Any error is wrapped with the decode prefix and comes without an image. */
  function Wrap(r: Outcome): (w: Outcome)
    ensures w.err.Some? <==> r.err.Some?
    ensures w.err.Some? ==> w.img == None && DecodePrefix <= w.err.value && w.err.value[|DecodePrefix|..] == r.err.value
    ensures w.err.None? ==> w == r
  {
    if r.err.Some? then Outcome(None, Some(DecodePrefix + r.err.value)) else r
  }

  /**
   * `DecodeWithContext`: `NewDWebP().Input(r).RunWithContext(ctx)`, errors
   * wrapped. `launched` is every process it started. With no output set, a
   * successful run whose stdout decodes returns that image.
   */
  method DecodeWithContext(g: Globals, env: Env, ctx: Context, watcherDone: bool, r: Option<Reader>,
                           outcome: ExecOutcome, decodePng: string -> Result<Image, string>)
    returns (img: Option<Image>, err: Option<string>, launched: seq<Invocation>)
    modifies g
    ensures launched == if r.Some? then [Invocation("dwebp", ["-o", "-", "--", "-"], r, None)] else []
    ensures r.None? ==> img == None && err == Some(DecodePrefix + "failed to set input: undefined input")
    ensures r.Some? ==> Outcome(img, err) == Wrap(Finish(Defaults.(input := r), ctx, watcherDone, outcome, decodePng))
    ensures r.Some? && outcome.Exited? && decodePng(outcome.stdout).Success? ==>
      img == Some(decodePng(outcome.stdout).value) && err == None
    ensures g.Current() == EnvOverlay(old(g.Current()), env)
  {
    var d := NewDWebP(g, env, []);
    d.Input(r);
    PlanErrors(d.Opts());
    if r.Some? {
      assert Plan(d.Opts()).value.args == ["-o", "-", "--", "-"];
    }
    img, err := d.RunWithContext(ctx, watcherDone, outcome, decodePng);
    if err.Some? {
      img, err := None, Some(DecodePrefix + err.value);
    }
    launched := d.bin.launched;
  }

  /** `Decode`: `DecodeWithContext` with a background context, which is never cancelled. */
  method Decode(g: Globals, env: Env, r: Option<Reader>, outcome: ExecOutcome,
                decodePng: string -> Result<Image, string>)
    returns (img: Option<Image>, err: Option<string>, launched: seq<Invocation>)
    modifies g
    ensures launched == if r.Some? then [Invocation("dwebp", ["-o", "-", "--", "-"], r, None)] else []
    ensures r.None? ==> img == None && err == Some(DecodePrefix + "failed to set input: undefined input")
    ensures r.Some? ==> Outcome(img, err) == Wrap(Finish(Defaults.(input := r), Background, false, outcome, decodePng))
    ensures err.Some? ==> !(DecodePrefix + "operation cancelled: " <= err.value)
    ensures g.Current() == EnvOverlay(old(g.Current()), env)
  {
    img, err, launched := DecodeWithContext(g, env, Background, false, r, outcome, decodePng);
    if err.Some? {
      var inner := if r.Some? then Finish(Defaults.(input := r), Background, false, outcome, decodePng).err.value
                   else "failed to set input: undefined input";
      if r.Some? {
        FinishRules(Defaults.(input := r), Background, false, outcome, decodePng);
      }
      assert inner[0] == 'f' || !("operation cancelled: " <= inner);
      assert err.value == DecodePrefix + inner;
      NotPrefixAfter(DecodePrefix, "operation cancelled: ", inner);
    }
  }

  /** A common head does not make a prefix out of a non-prefix. */
  lemma NotPrefixAfter(p: string, q: string, s: string)
    requires !(q <= s)
    ensures !(p + q <= p + s)
  {
    if p + q <= p + s {
      assert forall i :: 0 <= i < |q| ==> q[i] == (p + q)[|p| + i] == (p + s)[|p| + i] == s[i];
    }
  }
}
