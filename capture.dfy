/**
 * The capture run: one shared browser page, and for every URL in order a
 * list of viewport tasks. The task at viewport index 0 first navigates the
 * page to the URL; every task then resizes the page to its viewport and
 * takes a full-page screenshot named after the URL and the viewport size.
 *
 * The page is a class whose fields are the URL it shows and the viewport it
 * renders at, with the log of the calls made on it. The calls a run makes
 * are specified by `Trace`, and the lemmas below state what that sequence
 * of calls achieves.
 */
module Capture {
  import opened Wrappers
  import opened Text
  import opened Config

  /** A call made on the page. */
  datatype Action = GotoCall(url: string) | SetViewportCall(viewport: Viewport) | ScreenshotCall(path: string)

  /** What the page shows: the URL it was last navigated to and the viewport
      it was last set to (`None` before the first such call). */
  datatype PageState = PageState(url: Option<string>, viewport: Option<Viewport>)

  /** The effect of one call on the page. A screenshot changes nothing. */
  function Step(s: PageState, a: Action): (r: PageState)
    ensures a.ScreenshotCall? ==> r == s
    ensures r.url == if a.GotoCall? then Some(a.url) else s.url
    ensures r.viewport == if a.SetViewportCall? then Some(a.viewport) else s.viewport
  {
    match a
    case GotoCall(u) => s.(url := Some(u))
    case SetViewportCall(v) => s.(viewport := Some(v))
    case ScreenshotCall(_) => s
  }

  /** The page after the calls `t`, starting from `s`. */
  function Replay(s: PageState, t: seq<Action>): PageState
  {
    if t == [] then s else Step(Replay(s, t[..|t| - 1]), t[|t| - 1])
  }

  /** Replaying two call sequences one after the other. */
  lemma {:induction false} ReplayConcat(s: PageState, a: seq<Action>, b: seq<Action>)
    ensures Replay(s, a + b) == Replay(Replay(s, a), b)
    decreases |b|
  {
    if b != [] {
      assert (a + b)[..|a + b| - 1] == a + b[..|b| - 1];
      assert (a + b)[|a + b| - 1] == b[|b| - 1];
      ReplayConcat(s, a, b[..|b| - 1]);
    } else {
      assert a + b == a;
    }
  }

  /** A viewport dimension as a template literal writes it. */
  function DimText(d: Dim): (s: string)
    ensures 'x' !in s
  {
    match d
    case Num(n) =>
      assert !IsDigit('x');
      NatToString(n)
    case NaN => "NaN"
    case Undefined => "undefined"
  }

  /** The file name of the screenshot of `url` at `v`. */
  function ShotName(filenamify: string -> string, url: string, v: Viewport): (name: string)
    ensures |name| >= |filenamify(url)| + 1 + 4
    ensures name[..|filenamify(url)| + 1] == filenamify(url) + "_"
    ensures name[|name| - 4..] == ".png"
  {
    filenamify(url) + "_" + DimText(v.width) + "x" + DimText(v.height) + ".png"
  }

  /** Where the screenshot of `url` at `v` is written. */
  function ShotPath(outDir: string, filenamify: string -> string, url: string, v: Viewport): (path: string)
    ensures |path| >= |outDir| + 1 && path[..|outDir| + 1] == outDir + "/"
    ensures path[|outDir| + 1..] == ShotName(filenamify, url, v)
  {
    JoinPath(outDir, ShotName(filenamify, url, v))
  }

  /** The naming of screenshot files of a run writing to `outDir`. The calls
      of a run below are stated for any naming `pathOf`; the run uses this one. */
  function ShotPaths(outDir: string, filenamify: string -> string): (string, Viewport) -> string
  {
    (url: string, v: Viewport) => ShotPath(outDir, filenamify, url, v)
  }

  /** The calls of the task for viewport `i` of `url`. */
  function TaskActions(cfg: RunConfig, pathOf: (string, Viewport) -> string, url: string, i: nat): seq<Action>
    requires i < |cfg.viewports|
  {
    var v := cfg.viewports[i];
    (if i == 0 then [GotoCall(url)] else []) + [SetViewportCall(v), ScreenshotCall(pathOf(url, v))]
  }

  /** A viewport task makes three calls at index 0 and two otherwise: it
      starts with the navigation exactly at index 0, and ends with the
      resize to its viewport and the screenshot named for its URL and viewport. */
  lemma TaskActionsCalls(cfg: RunConfig, pathOf: (string, Viewport) -> string, url: string, i: nat)
    requires i < |cfg.viewports|
    ensures |TaskActions(cfg, pathOf, url, i)| == if i == 0 then 3 else 2
    ensures TaskActions(cfg, pathOf, url, i)[0] == GotoCall(url) <==> i == 0
    ensures TaskActions(cfg, pathOf, url, i)[|TaskActions(cfg, pathOf, url, i)| - 2] == SetViewportCall(cfg.viewports[i])
    ensures TaskActions(cfg, pathOf, url, i)[|TaskActions(cfg, pathOf, url, i)| - 1] == ScreenshotCall(pathOf(url, cfg.viewports[i]))
  {
  }

  /** The calls of the first `n` viewport tasks of `url`. */
  function UrlActions(cfg: RunConfig, pathOf: (string, Viewport) -> string, url: string, n: nat): seq<Action>
    requires n <= |cfg.viewports|
  {
    if n == 0 then [] else UrlActions(cfg, pathOf, url, n - 1) + TaskActions(cfg, pathOf, url, n - 1)
  }

  /** The tasks of one URL make two calls per viewport, plus the navigation
      when there is a viewport. */
  lemma {:induction false} UrlActionsLength(cfg: RunConfig, pathOf: (string, Viewport) -> string, url: string, n: nat)
    requires n <= |cfg.viewports|
    ensures |UrlActions(cfg, pathOf, url, n)| == if n == 0 then 0 else 2 * n + 1
  {
    if n > 0 {
      UrlActionsLength(cfg, pathOf, url, n - 1);
      TaskActionsCalls(cfg, pathOf, url, n - 1);
    }
  }

  /** The calls of the tasks of the first `k` URLs. */
  function RunActions(cfg: RunConfig, pathOf: (string, Viewport) -> string, k: nat): seq<Action>
    requires k <= |cfg.urls|
  {
    if k == 0 then []
    else
      RunActions(cfg, pathOf, k - 1) + UrlActions(cfg, pathOf, cfg.urls[k - 1], |cfg.viewports|)
  }

  /** The tasks of the first `k` URLs make k times the calls of one URL. */
  lemma {:induction false} RunActionsLength(cfg: RunConfig, pathOf: (string, Viewport) -> string, k: nat)
    requires k <= |cfg.urls|
    ensures |RunActions(cfg, pathOf, k)| == GroupStart(k, UrlCalls(cfg))
  {
    if k > 0 {
      RunActionsLength(cfg, pathOf, k - 1);
      UrlActionsLength(cfg, pathOf, cfg.urls[k - 1], |cfg.viewports|);
    }
  }

  /** A run makes |urls| times the calls of one URL. */
  lemma TraceLength(cfg: RunConfig, pathOf: (string, Viewport) -> string)
    ensures |Trace(cfg, pathOf)| == GroupStart(|cfg.urls|, UrlCalls(cfg))
  {
    RunActionsLength(cfg, pathOf, |cfg.urls|);
  }

  /** Where group number `a` starts among groups of `n` in a row: a * n,
      written as a sum (see `GroupStartIsProduct`). */
  function GroupStart(a: nat, n: nat): nat
  {
    if a == 0 then 0 else GroupStart(a - 1, n) + n
  }

  lemma {:induction false} GroupStartIsProduct(a: nat, n: nat)
    ensures GroupStart(a, n) == a * n
  {
    if a > 0 {
      GroupStartIsProduct(a - 1, n);
      assert (a - 1) * n + n == a * n;
    }
  }

  /** The number of calls the tasks of one URL make. */
  function UrlCalls(cfg: RunConfig): nat
  {
    if |cfg.viewports| == 0 then 0 else 2 * |cfg.viewports| + 1
  }

  /** All calls a run makes on the page. */
  function Trace(cfg: RunConfig, pathOf: (string, Viewport) -> string): seq<Action>
  {
    RunActions(cfg, pathOf, |cfg.urls|)
  }

  /** The paths of the screenshots in `t`, in order. */
  function Shots(t: seq<Action>): seq<string>
  {
    if t == [] then []
    else (if t[0].ScreenshotCall? then [t[0].path] else []) + Shots(t[1..])
  }

  /** The URLs navigated to in `t`, in order. */
  function Visits(t: seq<Action>): seq<string>
  {
    if t == [] then []
    else (if t[0].GotoCall? then [t[0].url] else []) + Visits(t[1..])
  }

  lemma {:induction false} ShotsConcat(a: seq<Action>, b: seq<Action>)
    ensures Shots(a + b) == Shots(a) + Shots(b)
  {
    if a == [] {
      assert a + b == b;
    } else {
      assert (a + b)[1..] == a[1..] + b;
      assert (a + b)[0] == a[0];
      ShotsConcat(a[1..], b);
    }
  }

  lemma {:induction false} VisitsConcat(a: seq<Action>, b: seq<Action>)
    ensures Visits(a + b) == Visits(a) + Visits(b)
  {
    if a == [] {
      assert a + b == b;
    } else {
      assert (a + b)[1..] == a[1..] + b;
      assert (a + b)[0] == a[0];
      VisitsConcat(a[1..], b);
    }
  }

  /** The page `s` shows what the screenshot file `path` is named after. */
  predicate Shows(pathOf: (string, Viewport) -> string, s: PageState, path: string)
  {
    s.url.Some? && s.viewport.Some? && path == pathOf(s.url.value, s.viewport.value)
  }

  /** Every screenshot in `t`, replayed from `s`, is taken while the page
      shows the URL and viewport its file name names. */
  predicate ShotsNamed(pathOf: (string, Viewport) -> string, s: PageState, t: seq<Action>)
  {
    forall j :: 0 <= j < |t| && t[j].ScreenshotCall? ==> Shows(pathOf, Replay(s, t[..j]), t[j].path)
  }

  lemma ShotsNamedConcat(pathOf: (string, Viewport) -> string, s: PageState, a: seq<Action>, b: seq<Action>)
    requires ShotsNamed(pathOf, s, a)
    requires ShotsNamed(pathOf, Replay(s, a), b)
    ensures ShotsNamed(pathOf, s, a + b)
  {
    forall j | 0 <= j < |a + b| && (a + b)[j].ScreenshotCall?
      ensures Shows(pathOf, Replay(s, (a + b)[..j]), (a + b)[j].path)
    {
      if j < |a| {
        assert (a + b)[..j] == a[..j];
      } else {
        var i := j - |a|;
        assert (a + b)[..j] == a + b[..i];
        assert (a + b)[j] == b[i];
        ReplayConcat(s, a, b[..i]);
      }
    }
  }

  /** The tasks of one URL, from any page: the page ends at that URL and at
      the last viewport done, and every screenshot shows what it is named after. */
  lemma {:induction false} UrlActionsShowTheirTarget(cfg: RunConfig, pathOf: (string, Viewport) -> string, url: string, n: nat, s: PageState)
    requires 1 <= n <= |cfg.viewports|
    ensures Replay(s, UrlActions(cfg, pathOf, url, n)) == PageState(Some(url), Some(cfg.viewports[n - 1]))
    ensures ShotsNamed(pathOf, s, UrlActions(cfg, pathOf, url, n))
  {
    var prev := UrlActions(cfg, pathOf, url, n - 1);
    var task := TaskActions(cfg, pathOf, url, n - 1);
    var v := cfg.viewports[n - 1];
    var path := pathOf(url, v);
    assert UrlActions(cfg, pathOf, url, n) == prev + task;
    if n == 1 {
      assert prev == [];
      assert task == [GotoCall(url), SetViewportCall(v), ScreenshotCall(path)];
      assert task[..0] == [] && task[..1] == [GotoCall(url)];
      assert task[..2] == [GotoCall(url), SetViewportCall(v)];
      assert task[..2][..1] == task[..1];
      assert task[..3] == task;
      assert Replay(s, task[..1]) == PageState(Some(url), s.viewport);
      assert Replay(s, task[..2]) == PageState(Some(url), Some(v));
      assert ShotsNamed(pathOf, s, task);
      assert prev + task == task;
    } else {
      UrlActionsShowTheirTarget(cfg, pathOf, url, n - 1, s);
      var mid := Replay(s, prev);
      assert mid.url == Some(url);
      assert task == [SetViewportCall(v), ScreenshotCall(path)];
      assert task[..0] == [] && task[..1] == [SetViewportCall(v)];
      assert Replay(mid, task[..1]) == PageState(Some(url), Some(v));
      assert ShotsNamed(pathOf, mid, task);
      ShotsNamedConcat(pathOf, s, prev, task);
      ReplayConcat(s, prev, task);
    }
  }

  /** Every screenshot of a run is taken while the page shows a URL and a
      viewport its file name names, whatever the page showed before. This
      goes through the names only: with a naming that gives two URLs one
      name it says less, and `TraceShotAt` states it task by task. */
  lemma {:induction false} TraceShotsNamed(cfg: RunConfig, pathOf: (string, Viewport) -> string, s: PageState)
    ensures ShotsNamed(pathOf, s, Trace(cfg, pathOf))
  {
    RunActionsShotsNamed(cfg, pathOf, s, |cfg.urls|);
  }

  lemma {:induction false} RunActionsShotsNamed(cfg: RunConfig, pathOf: (string, Viewport) -> string, s: PageState, k: nat)
    requires k <= |cfg.urls|
    ensures ShotsNamed(pathOf, s, RunActions(cfg, pathOf, k))
  {
    if k > 0 {
      var prev := RunActions(cfg, pathOf, k - 1);
      var block := UrlActions(cfg, pathOf, cfg.urls[k - 1], |cfg.viewports|);
      assert RunActions(cfg, pathOf, k) == prev + block;
      RunActionsShotsNamed(cfg, pathOf, s, k - 1);
      if |cfg.viewports| == 0 {
        assert block == [];
        assert prev + block == prev;
      } else {
        AppendUrlShotsNamed(cfg, pathOf, s, prev, cfg.urls[k - 1]);
      }
    }
  }

  /** The tasks of one more URL keep every screenshot showing its target. */
  lemma AppendUrlShotsNamed(cfg: RunConfig, pathOf: (string, Viewport) -> string, s: PageState, prev: seq<Action>, url: string)
    requires |cfg.viewports| >= 1
    requires ShotsNamed(pathOf, s, prev)
    ensures ShotsNamed(pathOf, s, prev + UrlActions(cfg, pathOf, url, |cfg.viewports|))
  {
    UrlActionsShowTheirTarget(cfg, pathOf, url, |cfg.viewports|, Replay(s, prev));
    ShotsNamedConcat(pathOf, s, prev, UrlActions(cfg, pathOf, url, |cfg.viewports|));
  }

  /** One viewport task navigates only at index 0, and then to its URL. */
  lemma TaskActionsVisits(cfg: RunConfig, pathOf: (string, Viewport) -> string, url: string, i: nat)
    requires i < |cfg.viewports|
    ensures Visits(TaskActions(cfg, pathOf, url, i)) == if i == 0 then [url] else []
  {
    var v := cfg.viewports[i];
    var shot := [ScreenshotCall(pathOf(url, v))];
    var tail := [SetViewportCall(v)] + shot;
    assert shot[1..] == [] && Visits(shot) == [];
    assert tail[1..] == shot && Visits(tail) == [];
    if i == 0 {
      assert TaskActions(cfg, pathOf, url, i) == [GotoCall(url)] + tail;
      VisitsConcat([GotoCall(url)], tail);
      assert [GotoCall(url)][1..] == [];
    } else {
      assert TaskActions(cfg, pathOf, url, i) == tail;
    }
  }

  /** One viewport task takes exactly one screenshot, of its URL at its viewport. */
  lemma TaskActionsShots(cfg: RunConfig, pathOf: (string, Viewport) -> string, url: string, i: nat)
    requires i < |cfg.viewports|
    ensures Shots(TaskActions(cfg, pathOf, url, i)) == [pathOf(url, cfg.viewports[i])]
  {
    var v := cfg.viewports[i];
    var path := pathOf(url, v);
    var shot := [ScreenshotCall(path)];
    var tail := [SetViewportCall(v)] + shot;
    assert shot[1..] == [] && Shots(shot) == [path];
    assert tail[1..] == shot && Shots(tail) == [path];
    if i == 0 {
      assert TaskActions(cfg, pathOf, url, i) == [GotoCall(url)] + tail;
      ShotsConcat([GotoCall(url)], tail);
      assert [GotoCall(url)][1..] == [];
    } else {
      assert TaskActions(cfg, pathOf, url, i) == tail;
    }
  }

  /** The tasks of one URL begin with the navigation to it. */
  lemma {:induction false} UrlActionsStart(cfg: RunConfig, pathOf: (string, Viewport) -> string, url: string, n: nat)
    requires 1 <= n <= |cfg.viewports|
    ensures UrlActions(cfg, pathOf, url, n)[0] == GotoCall(url)
  {
    var prev := UrlActions(cfg, pathOf, url, n - 1);
    var task := TaskActions(cfg, pathOf, url, n - 1);
    assert UrlActions(cfg, pathOf, url, n) == prev + task;
    if n > 1 {
      UrlActionsStart(cfg, pathOf, url, n - 1);
      UrlActionsLength(cfg, pathOf, url, n - 1);
    }
  }

  /** The tasks of one URL navigate exactly once, to that URL. */
  lemma {:induction false} UrlActionsVisits(cfg: RunConfig, pathOf: (string, Viewport) -> string, url: string, n: nat)
    requires 1 <= n <= |cfg.viewports|
    ensures Visits(UrlActions(cfg, pathOf, url, n)) == [url]
  {
    var prev := UrlActions(cfg, pathOf, url, n - 1);
    var task := TaskActions(cfg, pathOf, url, n - 1);
    assert UrlActions(cfg, pathOf, url, n) == prev + task;
    TaskActionsVisits(cfg, pathOf, url, n - 1);
    VisitsConcat(prev, task);
    if n == 1 {
      assert prev == [];
    } else {
      UrlActionsVisits(cfg, pathOf, url, n - 1);
    }
  }

  /** The tasks of one URL take one screenshot per viewport, in viewport order. */
  lemma {:induction false} UrlActionsShots(cfg: RunConfig, pathOf: (string, Viewport) -> string, url: string, n: nat)
    requires n <= |cfg.viewports|
    ensures |Shots(UrlActions(cfg, pathOf, url, n))| == n
    ensures forall b :: 0 <= b < n ==> Shots(UrlActions(cfg, pathOf, url, n))[b] == pathOf(url, cfg.viewports[b])
  {
    if n == 0 {
      assert UrlActions(cfg, pathOf, url, n) == [];
    } else {
      var prev := UrlActions(cfg, pathOf, url, n - 1);
      var task := TaskActions(cfg, pathOf, url, n - 1);
      assert UrlActions(cfg, pathOf, url, n) == prev + task;
      UrlActionsShots(cfg, pathOf, url, n - 1);
      TaskActionsShots(cfg, pathOf, url, n - 1);
      ShotsConcat(prev, task);
    }
  }

  /** The names `pathOf` gives to `url` at every viewport of `vs`, in
      viewport order. */
  function Row(pathOf: (string, Viewport) -> string, url: string, vs: seq<Viewport>): seq<string>
  {
    seq(|vs|, b requires 0 <= b < |vs| => pathOf(url, vs[b]))
  }

  /** The rows of all URLs of `urls`, one after the other in URL order: the
      reference for the screenshots a run takes. */
  function Rows(pathOf: (string, Viewport) -> string, urls: seq<string>, vs: seq<Viewport>): seq<string>
  {
    if urls == [] then [] else Rows(pathOf, urls[..|urls| - 1], vs) + Row(pathOf, urls[|urls| - 1], vs)
  }

  lemma {:induction false} RowsLength(pathOf: (string, Viewport) -> string, urls: seq<string>, vs: seq<Viewport>)
    ensures |Rows(pathOf, urls, vs)| == GroupStart(|urls|, |vs|)
  {
    if urls != [] {
      RowsLength(pathOf, urls[..|urls| - 1], vs);
    }
  }

  /** `RowsAt` with the offset of URL `a` written as `GroupStart`. */
  lemma {:induction false} RowsGroupAt(pathOf: (string, Viewport) -> string, urls: seq<string>, vs: seq<Viewport>, a: nat, b: nat)
    requires a < |urls| && b < |vs|
    ensures GroupStart(a, |vs|) + b < |Rows(pathOf, urls, vs)|
    ensures Rows(pathOf, urls, vs)[GroupStart(a, |vs|) + b] == pathOf(urls[a], vs[b])
  {
    var init := urls[..|urls| - 1];
    var last := Row(pathOf, urls[|urls| - 1], vs);
    RowsLength(pathOf, init, vs);
    assert Rows(pathOf, urls, vs) == Rows(pathOf, init, vs) + last;
    if a < |urls| - 1 {
      RowsGroupAt(pathOf, init, vs, a, b);
      assert init[a] == urls[a];
    } else {
      assert last[b] == pathOf(urls[a], vs[b]);
    }
  }

  /** There are |urls| * |vs| entries in the rows, and entry a * |vs| + b is
      the name of URL number `a` at viewport number `b`. */
  lemma RowsAt(pathOf: (string, Viewport) -> string, urls: seq<string>, vs: seq<Viewport>, a: nat, b: nat)
    requires a < |urls| && b < |vs|
    ensures |Rows(pathOf, urls, vs)| == |urls| * |vs|
    ensures a * |vs| + b < |Rows(pathOf, urls, vs)|
    ensures Rows(pathOf, urls, vs)[a * |vs| + b] == pathOf(urls[a], vs[b])
  {
    RowsLength(pathOf, urls, vs);
    GroupStartIsProduct(a, |vs|);
    GroupStartIsProduct(|urls|, |vs|);
    RowsGroupAt(pathOf, urls, vs, a, b);
  }

  /** The screenshots of the tasks of one URL are its row. */
  lemma UrlActionsRow(cfg: RunConfig, pathOf: (string, Viewport) -> string, url: string)
    ensures Shots(UrlActions(cfg, pathOf, url, |cfg.viewports|)) == Row(pathOf, url, cfg.viewports)
  {
    UrlActionsShots(cfg, pathOf, url, |cfg.viewports|);
  }

  /** The screenshots of the tasks of the first `k` URLs are their rows: one
      per URL and viewport, grouped by URL in URL order and by viewport
      within a URL. */
  lemma {:induction false} RunActionsShots(cfg: RunConfig, pathOf: (string, Viewport) -> string, k: nat)
    requires k <= |cfg.urls|
    ensures Shots(RunActions(cfg, pathOf, k)) == Rows(pathOf, cfg.urls[..k], cfg.viewports)
  {
    if k > 0 {
      var prev := RunActions(cfg, pathOf, k - 1);
      var block := UrlActions(cfg, pathOf, cfg.urls[k - 1], |cfg.viewports|);
      assert RunActions(cfg, pathOf, k) == prev + block;
      RunActionsShots(cfg, pathOf, k - 1);
      UrlActionsRow(cfg, pathOf, cfg.urls[k - 1]);
      ShotsConcat(prev, block);
      assert cfg.urls[..k][..k - 1] == cfg.urls[..k - 1];
    } else {
      assert RunActions(cfg, pathOf, k) == [];
    }
  }

  /** A run takes exactly the screenshots of `Rows`: by `RowsAt`, |urls| *
      |viewports| of them, the one of URL number `a` at viewport number `b`
      being screenshot number a * |viewports| + b. */
  lemma TraceShots(cfg: RunConfig, pathOf: (string, Viewport) -> string)
    ensures Shots(Trace(cfg, pathOf)) == Rows(pathOf, cfg.urls, cfg.viewports)
  {
    RunActionsShots(cfg, pathOf, |cfg.urls|);
    assert cfg.urls[..|cfg.urls|] == cfg.urls;
  }

  lemma {:induction false} RunActionsVisits(cfg: RunConfig, pathOf: (string, Viewport) -> string, k: nat)
    requires k <= |cfg.urls|
    ensures Visits(RunActions(cfg, pathOf, k)) == if |cfg.viewports| == 0 then [] else cfg.urls[..k]
  {
    if k > 0 {
      var prev := RunActions(cfg, pathOf, k - 1);
      var block := UrlActions(cfg, pathOf, cfg.urls[k - 1], |cfg.viewports|);
      assert RunActions(cfg, pathOf, k) == prev + block;
      RunActionsVisits(cfg, pathOf, k - 1);
      if |cfg.viewports| == 0 {
        assert block == [];
      } else {
        UrlActionsVisits(cfg, pathOf, cfg.urls[k - 1], |cfg.viewports|);
      }
      VisitsConcat(prev, block);
      assert cfg.urls[..k] == cfg.urls[..k - 1] + [cfg.urls[k - 1]];
    }
  }

  /** A run navigates to the URLs exactly as listed, once each and in order,
      as long as there is a viewport; with no viewport it never navigates. */
  lemma TraceVisits(cfg: RunConfig, pathOf: (string, Viewport) -> string)
    ensures Visits(Trace(cfg, pathOf)) == if |cfg.viewports| == 0 then [] else cfg.urls
  {
    RunActionsVisits(cfg, pathOf, |cfg.urls|);
    assert cfg.urls[..|cfg.urls|] == cfg.urls;
  }

  /** For a configuration built from options, the viewport list is never
      empty, so every entry of `urls` is navigated to once, in order (a URL
      listed twice is navigated to twice); the run takes one screenshot per
      URL and viewport, grouped by URL; and the HTML files given change
      nothing in it. */
  lemma PreparedRunVisitsEveryUrlOnce(args: Args, installDir: string, filenamify: string -> string, htmls: seq<string>)
    ensures Visits(Trace(Prepare(args, installDir), ShotPaths(args.outDir, filenamify))) == args.urls
    ensures Shots(Trace(Prepare(args, installDir), ShotPaths(args.outDir, filenamify)))
         == Rows(ShotPaths(args.outDir, filenamify), args.urls, PrepareViewports(args))
    ensures Trace(Prepare(args.(htmls := htmls), installDir), ShotPaths(args.outDir, filenamify))
         == Trace(Prepare(args, installDir), ShotPaths(args.outDir, filenamify))
  {
    var cfg := Prepare(args, installDir);
    var pathOf := ShotPaths(args.outDir, filenamify);
    TraceVisits(cfg, pathOf);
    TraceShots(cfg, pathOf);
    PrepareOtherHtmls(args, installDir, htmls);
    TraceIgnoresHtmls(cfg, pathOf, PrepareHtmls(installDir, htmls));
  }

  /** Two viewports of one URL never write to the same file. */
  lemma ShotNamesDistinct(filenamify: string -> string, url: string, v: Viewport, w: Viewport)
    requires ShotName(filenamify, url, v) == ShotName(filenamify, url, w)
    ensures v == w
  {
    SizeTextsDistinct(filenamify(url) + "_", DimText(v.width), DimText(v.height), DimText(w.width), DimText(w.height));
    DimTextInjective(v.width, w.width);
    DimTextInjective(v.height, w.height);
  }

  /** Behind a common prefix and before the extension, "W" + "x" + "H" gives
      back W and H when neither contains the 'x'. */
  lemma SizeTextsDistinct(p: string, w1: string, h1: string, w2: string, h2: string)
    requires 'x' !in w1 && 'x' !in h1 && 'x' !in w2 && 'x' !in h2
    requires p + w1 + "x" + h1 + ".png" == p + w2 + "x" + h2 + ".png"
    ensures w1 == w2 && h1 == h2
  {
    var x1, x2 := h1 + ".png", h2 + ".png";
    assert p + w1 + "x" + h1 + ".png" == p + (w1 + "x" + x1);
    assert p + w2 + "x" + h2 + ".png" == p + (w2 + "x" + x2);
    CommonPrefix(p, w1 + "x" + x1, w2 + "x" + x2);
    assert 'x' !in ".png";
    SplitOnlySeparator(w1, x1, w2, x2, 'x');
    CommonSuffix(h1, h2, ".png");
  }

  lemma CommonPrefix(p: string, x: string, y: string)
    requires p + x == p + y
    ensures x == y
  {
    assert x == (p + x)[|p|..];
    assert y == (p + y)[|p|..];
  }

  lemma CommonSuffix(x: string, y: string, q: string)
    requires x + q == y + q
    ensures x == y
  {
    assert x == (x + q)[..|x + q| - |q|];
    assert y == (y + q)[..|y + q| - |q|];
  }

  /** Around the only separator, the texts on either side are determined. */
  lemma SplitOnlySeparator(a: string, b: string, c: string, d: string, sep: char)
    requires sep !in a && sep !in b && sep !in c && sep !in d
    requires a + [sep] + b == c + [sep] + d
    ensures a == c && b == d
  {
    assert Join([a, b], sep) == a + [sep] + b;
    assert Join([c, d], sep) == c + [sep] + d;
    SplitJoin([a, b], sep);
    SplitJoin([c, d], sep);
  }

  /** The text of a dimension determines the dimension. */
  lemma DimTextInjective(d: Dim, e: Dim)
    requires DimText(d) == DimText(e)
    ensures d == e
  {
    if d.Num? && e.Num? {
      NatToStringInjective(d.value, e.value);
    }
  }

  /** From a page that has not been navigated yet, the URL the page shows is
      one that some call in `t` navigated to. */
  lemma {:induction false} ReplayUrlVisited(s: PageState, t: seq<Action>)
    requires s.url.None?
    requires Replay(s, t).url.Some?
    ensures GotoCall(Replay(s, t).url.value) in t
  {
    var last := t[|t| - 1];
    var init := t[..|t| - 1];
    assert t == init + [last];
    if !last.GotoCall? {
      ReplayUrlVisited(s, init);
    }
  }

  /** Every screenshot of a run on a fresh page comes after a navigation to
      a URL its file is named after (through the names only, like
      `TraceShotsNamed`). */
  lemma GotoBeforeEveryShot(cfg: RunConfig, pathOf: (string, Viewport) -> string)
    ensures forall j :: 0 <= j < |Trace(cfg, pathOf)| && Trace(cfg, pathOf)[j].ScreenshotCall? ==>
      exists i, v :: 0 <= i < j && Trace(cfg, pathOf)[i].GotoCall? &&
        Trace(cfg, pathOf)[j].path == pathOf(Trace(cfg, pathOf)[i].url, v)
  {
    var t := Trace(cfg, pathOf);
    var blank := PageState(None, None);
    TraceShotsNamed(cfg, pathOf, blank);
    forall j | 0 <= j < |t| && t[j].ScreenshotCall?
      ensures exists i, v :: 0 <= i < j && t[i].GotoCall? && t[j].path == pathOf(t[i].url, v)
    {
      var shown := Replay(blank, t[..j]);
      assert Shows(pathOf, shown, t[j].path);
      ReplayUrlVisited(blank, t[..j]);
      var i :| 0 <= i < j && t[..j][i] == GotoCall(shown.url.value);
      assert t[i] == t[..j][i];
      assert t[j].path == pathOf(t[i].url, shown.viewport.value);
    }
  }

  /** The HTML files of the configuration take no part in the run. */
  lemma TraceIgnoresHtmls(cfg: RunConfig, pathOf: (string, Viewport) -> string, htmls: seq<string>)
    ensures Trace(cfg.(htmls := htmls), pathOf) == Trace(cfg, pathOf)
  {
    RunActionsIgnoreHtmls(cfg, pathOf, htmls, |cfg.urls|);
  }

  lemma {:induction false} RunActionsIgnoreHtmls(cfg: RunConfig, pathOf: (string, Viewport) -> string, htmls: seq<string>, k: nat)
    requires k <= |cfg.urls|
    ensures RunActions(cfg.(htmls := htmls), pathOf, k) == RunActions(cfg, pathOf, k)
  {
    if k > 0 {
      RunActionsIgnoreHtmls(cfg, pathOf, htmls, k - 1);
      UrlActionsIgnoreHtmls(cfg, pathOf, htmls, cfg.urls[k - 1], |cfg.viewports|);
    }
  }

  lemma {:induction false} UrlActionsIgnoreHtmls(cfg: RunConfig, pathOf: (string, Viewport) -> string, htmls: seq<string>, url: string, n: nat)
    requires n <= |cfg.viewports|
    ensures UrlActions(cfg.(htmls := htmls), pathOf, url, n) == UrlActions(cfg, pathOf, url, n)
  {
    if n > 0 {
      UrlActionsIgnoreHtmls(cfg, pathOf, htmls, url, n - 1);
    }
  }

  /** The calls of the first `m` viewport tasks of a URL begin the calls of
      its first `n`, for m <= n. */
  lemma {:induction false} UrlActionsPrefix(cfg: RunConfig, pathOf: (string, Viewport) -> string, url: string, m: nat, n: nat)
    requires m <= n <= |cfg.viewports|
    ensures |UrlActions(cfg, pathOf, url, m)| <= |UrlActions(cfg, pathOf, url, n)|
    ensures UrlActions(cfg, pathOf, url, n)[..|UrlActions(cfg, pathOf, url, m)|] == UrlActions(cfg, pathOf, url, m)
  {
    if m < n {
      UrlActionsPrefix(cfg, pathOf, url, m, n - 1);
      var prev := UrlActions(cfg, pathOf, url, n - 1);
      assert UrlActions(cfg, pathOf, url, n) == prev + TaskActions(cfg, pathOf, url, n - 1);
      assert (prev + TaskActions(cfg, pathOf, url, n - 1))[..|prev|] == prev;
    } else {
      assert UrlActions(cfg, pathOf, url, n)[..|UrlActions(cfg, pathOf, url, n)|] == UrlActions(cfg, pathOf, url, n);
    }
  }

  /** Within the calls of one URL, call number 2b + 2 is the screenshot for
      viewport `b`, and from any page the calls before it leave the page at
      that URL and viewport. */
  lemma UrlShotAt(cfg: RunConfig, pathOf: (string, Viewport) -> string, url: string, b: nat, s: PageState)
    requires b < |cfg.viewports|
    ensures 2 * b + 2 < |UrlActions(cfg, pathOf, url, |cfg.viewports|)|
    ensures UrlActions(cfg, pathOf, url, |cfg.viewports|)[2 * b + 2] == ScreenshotCall(pathOf(url, cfg.viewports[b]))
    ensures Replay(s, UrlActions(cfg, pathOf, url, |cfg.viewports|)[..2 * b + 2]) == PageState(Some(url), Some(cfg.viewports[b]))
  {
    var all := UrlActions(cfg, pathOf, url, |cfg.viewports|);
    var t := UrlActions(cfg, pathOf, url, b + 1);
    var task := TaskActions(cfg, pathOf, url, b);
    var p := 2 * b + 2;
    UrlActionsLength(cfg, pathOf, url, b);
    UrlActionsLength(cfg, pathOf, url, b + 1);
    TaskActionsCalls(cfg, pathOf, url, b);
    assert t == UrlActions(cfg, pathOf, url, b) + task;
    assert t[p] == task[|task| - 1];
    UrlActionsPrefix(cfg, pathOf, url, b + 1, |cfg.viewports|);
    PrefixCalls(all, t, p);
    UrlActionsShowTheirTarget(cfg, pathOf, url, b + 1, s);
    ReplayDropScreenshot(s, t);
  }

  /** A sequence that begins with `u` agrees with `u` on its first |u| calls. */
  lemma PrefixCalls(t: seq<Action>, u: seq<Action>, p: nat)
    requires |u| <= |t| && t[..|u|] == u && p < |u|
    ensures t[p] == u[p] && t[..p] == u[..p]
  {
    assert t[p] == t[..|u|][p];
    assert t[..p] == t[..|u|][..p];
  }

  /** Call `q` of `block`, in a sequence that begins with `prev + block`. */
  lemma InsideBlock(t: seq<Action>, prev: seq<Action>, block: seq<Action>, q: nat)
    requires |prev + block| <= |t| && t[..|prev + block|] == prev + block && q < |block|
    ensures t[|prev| + q] == block[q] && t[..|prev| + q] == prev + block[..q]
  {
    PrefixCalls(t, prev + block, |prev| + q);
    assert (prev + block)[..|prev| + q] == prev + block[..q];
  }

  /** A screenshot at the end of a call sequence changes nothing on the page. */
  lemma ReplayDropScreenshot(s: PageState, t: seq<Action>)
    requires |t| >= 1 && t[|t| - 1].ScreenshotCall?
    ensures Replay(s, t[..|t| - 1]) == Replay(s, t)
  {
  }

  /** The calls of the tasks of the first `m` URLs begin those of the first
      `k`, for m <= k. */
  lemma {:induction false} RunActionsPrefix(cfg: RunConfig, pathOf: (string, Viewport) -> string, m: nat, k: nat)
    requires m <= k <= |cfg.urls|
    ensures |RunActions(cfg, pathOf, m)| <= |RunActions(cfg, pathOf, k)|
    ensures RunActions(cfg, pathOf, k)[..|RunActions(cfg, pathOf, m)|] == RunActions(cfg, pathOf, m)
  {
    if m < k {
      RunActionsPrefix(cfg, pathOf, m, k - 1);
      var prev := RunActions(cfg, pathOf, k - 1);
      var block := UrlActions(cfg, pathOf, cfg.urls[k - 1], |cfg.viewports|);
      assert RunActions(cfg, pathOf, k) == prev + block;
      assert (prev + block)[..|prev|] == prev;
    } else {
      assert RunActions(cfg, pathOf, k)[..|RunActions(cfg, pathOf, k)|] == RunActions(cfg, pathOf, k);
    }
  }

  /** Where the calls for URL number `a` at viewport number `b` sit in a run,
      with n viewports: the navigation to the URL is call a * (2n + 1)
      (`GroupStart(a, 2n + 1)`), the screenshot for the viewport is call
      a * (2n + 1) + 2b + 2, after it, and
      from any page the calls before that screenshot leave the page showing
      exactly that URL at exactly that viewport, whatever the file names. */
  lemma TraceShotAt(cfg: RunConfig, pathOf: (string, Viewport) -> string, s: PageState, a: nat, b: nat)
    requires a < |cfg.urls| && b < |cfg.viewports|
    ensures GroupStart(a, UrlCalls(cfg)) + 2 * b + 2 < |Trace(cfg, pathOf)|
    ensures Trace(cfg, pathOf)[GroupStart(a, UrlCalls(cfg))] == GotoCall(cfg.urls[a])
    ensures Trace(cfg, pathOf)[GroupStart(a, UrlCalls(cfg)) + 2 * b + 2] == ScreenshotCall(pathOf(cfg.urls[a], cfg.viewports[b]))
    ensures Replay(s, Trace(cfg, pathOf)[..GroupStart(a, UrlCalls(cfg)) + 2 * b + 2]) == PageState(Some(cfg.urls[a]), Some(cfg.viewports[b]))
  {
    var n := |cfg.viewports|;
    var prev := RunActions(cfg, pathOf, a);
    var block := UrlActions(cfg, pathOf, cfg.urls[a], n);
    var t := Trace(cfg, pathOf);
    RunActionsLength(cfg, pathOf, a);
    assert RunActions(cfg, pathOf, a + 1) == prev + block;
    RunActionsPrefix(cfg, pathOf, a + 1, |cfg.urls|);
    UrlActionsStart(cfg, pathOf, cfg.urls[a], n);
    UrlActionsLength(cfg, pathOf, cfg.urls[a], n);
    UrlShotAt(cfg, pathOf, cfg.urls[a], b, Replay(s, prev));
    InsideBlock(t, prev, block, 0);
    InsideBlock(t, prev, block, 2 * b + 2);
    ReplayConcat(s, prev, block[..2 * b + 2]);
  }

  /** The one shared browser page. */
  class Page {
    var url: Option<string>
    var viewport: Option<Viewport>
    /** Every call made on the page, oldest first. */
    var actions: seq<Action>
    /** What the page showed before the first call. */
    ghost var start: PageState

    function State(): PageState
      reads this
    {
      PageState(url, viewport)
    }

    /** The page shows what its calls, replayed, leave it showing. */
    ghost predicate Valid()
      reads this
    {
      State() == Replay(start, actions)
    }

    /** A new page (about:blank, default viewport) on which nothing has been called. */
    constructor ()
      ensures Valid() && url == None && viewport == None && actions == []
    {
      url, viewport, actions := None, None, [];
      start := PageState(None, None);
    }

    method Goto(u: string)
      requires Valid()
      modifies this
      ensures Valid() && start == old(start)
      ensures url == Some(u) && viewport == old(viewport)
      ensures actions == old(actions) + [GotoCall(u)]
    {
      url := Some(u);
      actions := actions + [GotoCall(u)];
      assert actions[..|actions| - 1] == old(actions);
    }

    method SetViewport(v: Viewport)
      requires Valid()
      modifies this
      ensures Valid() && start == old(start)
      ensures url == old(url) && viewport == Some(v)
      ensures actions == old(actions) + [SetViewportCall(v)]
    {
      viewport := Some(v);
      actions := actions + [SetViewportCall(v)];
      assert actions[..|actions| - 1] == old(actions);
    }

    /** A full-page PNG screenshot written to `path`; what the page shows is unchanged. */
    method Screenshot(path: string)
      requires Valid()
      modifies this
      ensures Valid() && start == old(start)
      ensures url == old(url) && viewport == old(viewport)
      ensures actions == old(actions) + [ScreenshotCall(path)]
    {
      actions := actions + [ScreenshotCall(path)];
      assert actions[..|actions| - 1] == old(actions);
    }
  }

  /** The task of viewport `i` of `url`: navigate first when it is the
      first viewport, then resize and take the screenshot. */
  method RunViewportTask(page: Page, cfg: RunConfig, pathOf: (string, Viewport) -> string, url: string, i: nat)
    requires page.Valid() && i < |cfg.viewports|
    modifies page
    ensures page.Valid() && page.start == old(page.start)
    ensures page.actions == old(page.actions) + TaskActions(cfg, pathOf, url, i)
  {
    var viewport := cfg.viewports[i];
    if i == 0 {
      page.Goto(url);
    }
    page.SetViewport(viewport);
    page.Screenshot(pathOf(url, viewport));
  }

  /** The task list of one URL: its viewport tasks, in viewport order. */
  method RunUrlTask(page: Page, cfg: RunConfig, pathOf: (string, Viewport) -> string, url: string)
    requires page.Valid()
    modifies page
    ensures page.Valid() && page.start == old(page.start)
    ensures page.actions == old(page.actions) + UrlActions(cfg, pathOf, url, |cfg.viewports|)
  {
    var i := 0;
    while i < |cfg.viewports|
      invariant 0 <= i <= |cfg.viewports|
      invariant page.Valid() && page.start == old(page.start)
      invariant page.actions == old(page.actions) + UrlActions(cfg, pathOf, url, i)
    {
      RunViewportTask(page, cfg, pathOf, url, i);
      i := i + 1;
    }
  }

  /** The nested task list of a run, executed in order on `page`: the task
      lists of the URLs, in URL order. It makes exactly the calls of `Trace`. */
  method RunTasks(page: Page, cfg: RunConfig, pathOf: (string, Viewport) -> string)
    requires page.Valid()
    modifies page
    ensures page.Valid() && page.start == old(page.start)
    ensures page.actions == old(page.actions) + Trace(cfg, pathOf)
  {
    var k := 0;
    while k < |cfg.urls|
      invariant 0 <= k <= |cfg.urls|
      invariant page.Valid() && page.start == old(page.start)
      invariant page.actions == old(page.actions) + RunActions(cfg, pathOf, k)
    {
      RunUrlTask(page, cfg, pathOf, cfg.urls[k]);
      k := k + 1;
    }
  }

  /** The whole command: prepare the configuration, refuse a run without
      targets before any browser is started, and otherwise open one page and
      run the tasks on it. */
  method Run(args: Args, installDir: string, filenamify: string -> string) returns (r: Result<Page, string>)
    ensures r.Failure? <==> args.urls == [] && args.htmls == []
    ensures r.Failure? ==> r.error == MISSING_TARGETS
    ensures r.Success? ==> fresh(r.value) && r.value.Valid()
    ensures r.Success? ==> r.value.start == PageState(None, None)
    ensures r.Success? ==> r.value.actions == Trace(Prepare(args, installDir), ShotPaths(args.outDir, filenamify))
    ensures r.Success? ==> ShotsNamed(ShotPaths(args.outDir, filenamify), PageState(None, None), r.value.actions)
  {
    var checked := Validate(Prepare(args, installDir));
    if checked.Failure? {
      return Failure(checked.error);
    }
    var page := new Page();
    RunTasks(page, checked.value, ShotPaths(args.outDir, filenamify));
    TraceShotsNamed(checked.value, ShotPaths(args.outDir, filenamify), PageState(None, None));
    return Success(page);
  }
}
