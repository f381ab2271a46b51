/**
 * Turning the parsed command-line options into the run configuration:
 * viewport tokens "WxH" become width/height records (with the 1366x768
 * default when none is given), `htmls` are placed under the install
 * directory, `urls` and the output directory pass through, and a run with
 * no target at all is refused.
 */
module Config {
  import opened Wrappers
  import opened Text

  /** A viewport dimension as JavaScript leaves it: a number, `NaN` when the
      text is not a numeral, or `undefined` when the token had no such part. */
  datatype Dim = Num(value: nat) | NaN | Undefined

  datatype Viewport = Viewport(width: Dim, height: Dim)

  /** The options as the argument parser hands them over. */
  datatype Args = Args(urls: seq<string>, htmls: seq<string>, viewports: seq<string>, outDir: string)

  /** The configuration the capture run works from. */
  datatype RunConfig = RunConfig(urls: seq<string>, htmls: seq<string>, viewports: seq<Viewport>, outDir: string)

  /** The token used when no viewport is given. */
  const DEFAULT_VIEWPORT_TOKEN: string := "1366x768"

  /** The message of the error raised when there is nothing to capture. */
  const MISSING_TARGETS: string := "`urls` or `htmls` is required at least one"

  /** `Number` applied to one piece of a token. The empty text is 0; a
      decimal numeral is its value; any other text is treated as `NaN`. */
  function ToNumber(s: string): (d: Dim)
    ensures d != Undefined
    ensures d.Num? <==> IsDigits(s)
    ensures s == "" ==> d == Num(0)
  {
    if s == "" then Num(0)
    else if IsDigits(s) then Num(DigitsValue(s))
    else NaN
  }

  /** One token: split on 'x', every piece through `Number`, and the pieces
      paired with the keys width and height, stopping at the shorter list. */
  function ParseViewport(token: string): (v: Viewport)
    ensures v.width != Undefined
    ensures v.height == Undefined <==> 'x' !in token
  {
    var parts := Split(token, 'x');
    assert |parts| >= 2 ==> token == parts[0] + "x" + Join(parts[1..], 'x');
    Viewport(ToNumber(parts[0]), if |parts| >= 2 then ToNumber(parts[1]) else Undefined)
  }

  /** An empty list of tokens is replaced by the default token. */
  function ViewportTokens(tokens: seq<string>): (ts: seq<string>)
    ensures |ts| >= 1
    ensures tokens != [] ==> ts == tokens
  {
    if |tokens| == 0 then [DEFAULT_VIEWPORT_TOKEN] else tokens
  }

  /** Every token parsed, one viewport per token, in order. */
  function ParseViewports(tokens: seq<string>): (vs: seq<Viewport>)
    ensures |vs| == |tokens|
    ensures forall i :: 0 <= i < |tokens| ==> vs[i] == ParseViewport(tokens[i])
  {
    if tokens == [] then [] else [ParseViewport(tokens[0])] + ParseViewports(tokens[1..])
  }

  /** The viewports of a run: never empty; when tokens were given, one per
      token in the same order. */
  function PrepareViewports(args: Args): (vs: seq<Viewport>)
    ensures |vs| >= 1
    ensures args.viewports != [] ==>
      |vs| == |args.viewports| &&
      forall i :: 0 <= i < |vs| ==> vs[i] == ParseViewport(args.viewports[i])
  {
    ParseViewports(ViewportTokens(args.viewports))
  }

  /** `path.join`, simplified to putting a '/' between directory and name. */
  function JoinPath(dir: string, name: string): (p: string)
    ensures |p| == |dir| + 1 + |name|
    ensures p[..|dir|] == dir && p[|dir|] == '/' && p[|dir| + 1..] == name
  {
    dir + "/" + name
  }

  /** Every local HTML file placed under the install directory, in order. */
  function PrepareHtmls(installDir: string, htmls: seq<string>): (paths: seq<string>)
    ensures |paths| == |htmls|
    ensures forall i :: 0 <= i < |htmls| ==> paths[i] == JoinPath(installDir, htmls[i])
  {
    if htmls == [] then [] else [JoinPath(installDir, htmls[0])] + PrepareHtmls(installDir, htmls[1..])
  }

  /** The configuration built from the parsed options. */
  function Prepare(args: Args, installDir: string): (cfg: RunConfig)
    ensures cfg.urls == args.urls && cfg.outDir == args.outDir
    ensures |cfg.htmls| == |args.htmls|
    ensures forall i :: 0 <= i < |args.htmls| ==> cfg.htmls[i] == JoinPath(installDir, args.htmls[i])
    ensures cfg.viewports == PrepareViewports(args) && |cfg.viewports| >= 1
  {
    RunConfig(args.urls, PrepareHtmls(installDir, args.htmls), PrepareViewports(args), args.outDir)
  }

  /** The target check: a run is refused exactly when it has neither a URL
      nor an HTML file, and otherwise goes ahead with the configuration as is. */
  function Validate(cfg: RunConfig): (r: Result<RunConfig, string>)
    ensures r.Failure? <==> |cfg.urls| == 0 && |cfg.htmls| == 0
    ensures r.Failure? ==> r.error == MISSING_TARGETS
    ensures r.Success? ==> r.value == cfg
  {
    if |cfg.urls| == 0 && |cfg.htmls| == 0 then Failure(MISSING_TARGETS) else Success(cfg)
  }

  /** The HTML files change nothing in the configuration but its `htmls`. */
  lemma PrepareOtherHtmls(args: Args, installDir: string, htmls: seq<string>)
    ensures Prepare(args.(htmls := htmls), installDir) == Prepare(args, installDir).(htmls := PrepareHtmls(installDir, htmls))
  {
  }

  /** A token made of two decimal numerals parses to those two numbers. */
  lemma ParseDecimalToken(w: string, h: string)
    requires w != "" && IsDigits(w)
    requires h != "" && IsDigits(h)
    ensures ParseViewport(w + "x" + h) == Viewport(Num(DigitsValue(w)), Num(DigitsValue(h)))
  {
    assert 'x' !in w && 'x' !in h by {
      assert !IsDigit('x');
    }
    assert Join([w, h], 'x') == w + "x" + h;
    SplitJoin([w, h], 'x');
  }

  /** The token written as "W" + "x" + "H" for a width and a height parses
      back to exactly that width and height. */
  lemma ParseSizeToken(width: nat, height: nat)
    ensures ParseViewport(NatToString(width) + "x" + NatToString(height)) == Viewport(Num(width), Num(height))
  {
    ParseDecimalToken(NatToString(width), NatToString(height));
    DigitsValueOfNatToString(width);
    DigitsValueOfNatToString(height);
  }

  /** Without viewport tokens the run uses exactly one viewport, 1366 by 768. */
  lemma DefaultViewport(args: Args)
    requires args.viewports == []
    ensures PrepareViewports(args) == [Viewport(Num(1366), Num(768))]
  {
    assert DEFAULT_VIEWPORT_TOKEN == NatToString(1366) + "x" + NatToString(768);
    ParseSizeToken(1366, 768);
  }
}
