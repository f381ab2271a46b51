# capptr in Dafny

capptr is a command-line tool that captures full-page PNG screenshots of a list of
URLs, at a list of viewport sizes, into an output directory. This project models
the tool's own logic in `src/cli.js` and proves properties about it:

- **Configuration** (`config.dfy`, with `text.dfy`). The already-parsed options
  (`urls`, `htmls`, `viewports`, `outDir`) become the run configuration.
  - Each viewport token `"WxH"` is split on `x`. Every piece goes through
    `Number`, and the pieces are paired with the keys `width` and `height`.
  - An empty token list is replaced by `1366x768`.
  - The HTML files are placed under the install directory.
  - A run with neither a URL nor an HTML file is refused with the error
    `` `urls` or `htmls` is required at least one ``.
- **Capture** (`capture.dfy`). There is one shared browser `Page`: a class whose
  fields are the URL it shows, the viewport it renders at, and the log of calls
  made on it.
  - For every URL in order, the nested task list runs one task per viewport.
  - The task at index 0 first navigates to the URL. Every task then sets its
    viewport and takes a screenshot named
    `outDir/<filenamify(url)>_<width>x<height>.png`.
  - `Trace` specifies the calls a run makes. `Run`, `RunTasks`, `RunUrlTask`
    and `RunViewportTask` are proved to make exactly those calls, by
    nested loops over URLs and viewports.
  - Lemmas about `Trace` prove the following:
    - the screenshots are grouped by URL and then by viewport;
    - on options from the command line, every entry of `urls` is navigated to
      once, in order (a URL listed twice is navigated to twice);
    - the navigation to a URL comes before its screenshots, and each
      screenshot is taken while the page shows exactly that task's URL and
      viewport;
    - the HTML files never take part in the run.

`wrappers.dfy` holds the `Option` and `Result` types.

Two points about the code shape the model.
- The code does not validate viewport tokens. It keeps any `Number` result, so
  the model keeps `0` (from an empty piece), `NaN` (from a non-numeral) and
  `undefined` (from a token without `x`). They flow into the configuration and
  into file names as `0`, `NaN` and `undefined`.
- The target check runs on the prepared configuration when the script loads,
  before the browser is started. `Run` likewise refuses the run before it
  creates the page.

## Model

| member | source | states |
|---|---|---|
| Text.Split | src/cli.js:36 | splitting on `x` gives at least one piece; the pieces never contain `x`; joined with `x`, they give the token back |
| Text.SplitJoin | src/cli.js:36 | for pieces without the separator, splitting their join gives exactly those pieces |
| Text.NatToString | src/cli.js:78-79 | a number is written as a non-empty numeral of digits only, with no leading zero except for 0 (as JavaScript writes it up to 2^53) |
| Text.DigitsValueOfNatToString | src/cli.js:35 | `Number` on the numeral written for n reads back n |
| Text.NatToStringInjective | src/cli.js:78-79 | different numbers are written as different numerals |
| Config.ToNumber | src/cli.js:35 | a piece is a number exactly when it is made of decimal digits, the empty piece being 0; otherwise it is `NaN`, never `undefined` |
| Config.ParseViewport | src/cli.js:34-36 | the width is always set; the height is `undefined` exactly when the token has no `x` (the pairing stops at the shorter list) |
| Config.ViewportTokens | src/cli.js:37 | never empty; tokens that were given are kept as they are |
| Config.JoinPath | src/cli.js:43 | the path is the directory, then `/`, then the name |
| Config.PrepareOtherHtmls | src/cli.js:40-48 | the HTML files change nothing in the configuration but its `htmls` |
| Config.ParseViewports | src/cli.js:34-36 | one viewport per token, the i-th parsed from the i-th token |
| Config.PrepareViewports | src/cli.js:33-39 | never empty; with tokens given, one-to-one and in order with them |
| Config.ParseDecimalToken | src/cli.js:34-36 | a token `W + "x" + H` with decimal numerals W and H parses to width W and height H |
| Config.ParseSizeToken | src/cli.js:34-36 | the token written for a width and a height parses back to that width and height |
| Config.DefaultViewport | src/cli.js:37 | without tokens the viewports are exactly `[{width: 1366, height: 768}]` |
| Config.PrepareHtmls | src/cli.js:42-45 | same length and order; entry i is the install directory joined with html i |
| Config.Prepare | src/cli.js:40-48 | `urls` and `outDir` kept verbatim; `htmls` joined onto the install directory, in order; the viewports are those of the tokens, and there is at least one |
| Config.Validate | src/cli.js:50-52 | fails if and only if both `urls` and `htmls` are empty, with the tool's message; otherwise returns the configuration unchanged (so `htmls` alone is accepted) |
| Capture.Step | src/cli.js:71-84 | a navigation changes only the URL shown, a resize only the viewport, and a screenshot nothing |
| Capture.ReplayConcat | src/cli.js:60-92 | replaying two call sequences one after the other is replaying their concatenation |
| Capture.ReplayDropScreenshot | src/cli.js:75-84 | a screenshot at the end of a call sequence leaves the page as it was |
| Capture.ShotName | src/cli.js:78-80 | the file name starts with the filenamified URL and `_` and ends with `.png` |
| Capture.ShotPath | src/cli.js:76-80 | the path is the output directory, then `/`, then the file name |
| Capture.TaskActionsCalls | src/cli.js:69-85 | a viewport task makes three calls at index 0 and two otherwise; it starts with the navigation exactly at index 0 and ends with the resize to its viewport and the screenshot named for its URL and viewport |
| Capture.UrlActionsLength | src/cli.js:65-88 | the tasks of one URL make two calls per viewport, plus the navigation when there is a viewport |
| Capture.RunActionsLength | src/cli.js:60-92 | the tasks of the first k URLs make k times the calls of one URL |
| Capture.TraceLength | src/cli.js:60-92 | a run makes as many calls as the URLs times the calls of one URL |
| Capture.UrlActionsPrefix | src/cli.js:66-87 | the calls of the first m viewport tasks of a URL begin the calls of its first n, for m <= n |
| Capture.UrlShotAt | src/cli.js:66-87 | within the calls of one URL, call 2b + 2 is the screenshot for viewport b, and the calls before it leave the page at that URL and viewport |
| Capture.RunActionsPrefix | src/cli.js:60-92 | the calls of the first m URLs begin those of the first k, for m <= k |
| Capture.TraceShotAt | src/cli.js:60-92 | for URL a and viewport b of n: call a(2n+1) is the navigation to URL a; call a(2n+1) + 2b + 2, after it, is the screenshot named for URL a and viewport b; and, from any page, the calls before it leave the page showing exactly that URL and viewport, whatever the file names |
| Capture.DimText | src/cli.js:78-79 | the text of a dimension never contains `x` |
| Capture.DimTextInjective | src/cli.js:78-79 | the text of a dimension determines the dimension, including `NaN` and `undefined` |
| Capture.SizeTextsDistinct | src/cli.js:78-80 | behind a common prefix and before `.png`, `W + "x" + H` determines W and H |
| Capture.ShotNamesDistinct | src/cli.js:76-80 | two viewports of one URL never get the same file name |
| Capture.TaskActionsVisits | src/cli.js:70-72 | a viewport task navigates once, to its URL, when its index is 0, and otherwise not at all |
| Capture.TaskActionsShots | src/cli.js:74-84 | a viewport task takes exactly one screenshot, named after its URL and viewport |
| Capture.UrlActionsStart | src/cli.js:66-72 | the calls for one URL start with the navigation to it |
| Capture.UrlActionsVisits | src/cli.js:66-72 | the calls for one URL navigate exactly once, to that URL |
| Capture.UrlActionsShots | src/cli.js:66-87 | the calls for one URL take one screenshot per viewport, in viewport order |
| Capture.UrlActionsShowTheirTarget | src/cli.js:66-87 | from any page, the calls for one URL leave it at that URL and the last viewport, and each screenshot shows what its file names |
| Capture.AppendUrlShotsNamed | src/cli.js:61-87 | appending the calls of one more URL keeps every screenshot showing what its file name names |
| Capture.RunActionsShotsNamed | src/cli.js:60-92 | for the first k URLs, every screenshot is taken while the page shows a URL and viewport that its file name names |
| Capture.TraceShotsNamed | src/cli.js:60-92 | every screenshot of a run, from any page, is taken while the page shows a URL and viewport that its file name names (by name only; the task-by-task statement is `TraceShotAt`) |
| Capture.UrlActionsRow | src/cli.js:66-87 | the screenshots of one URL are its row: its name at every viewport, in viewport order |
| Capture.RunActionsShots | src/cli.js:60-92 | the screenshots of the first k URLs are their rows, URL after URL |
| Capture.RowsAt | src/cli.js:60-92 | the rows of the URLs hold k * n names, for k URLs and n viewports, and name a * n + b is that of URL a at viewport b |
| Capture.TraceShots | src/cli.js:60-92 | the screenshots of a run are exactly the rows of its URLs: one per URL and viewport, grouped by URL in `urls` order and by viewport in `viewports` order |
| Capture.RunActionsVisits | src/cli.js:60-92 | with a viewport, the first k URLs are navigated to once each and in order; with none, there is no navigation |
| Capture.TraceVisits | src/cli.js:60-92 | a run navigates to `urls` exactly as listed, once each, when there is a viewport |
| Capture.PreparedRunVisitsEveryUrlOnce | src/cli.js:37-72 | for a configuration prepared from options, the navigations are exactly the entries of `urls`, in order; the screenshots are exactly the rows of `urls` at the prepared viewports; and the HTML files given change nothing in the run |
| Capture.ReplayUrlVisited | src/cli.js:70-74 | on a page not yet navigated, the URL shown is one that some call navigated to |
| Capture.GotoBeforeEveryShot | src/cli.js:66-84 | every screenshot of a run comes after a navigation to a URL its file is named after (by name only; `TraceShotAt` places the navigation to each URL before that URL's screenshots) |
| Capture.TraceIgnoresHtmls | src/cli.js:61 | the calls of a run do not depend on `htmls` |
| Capture.RunActionsIgnoreHtmls | src/cli.js:60-92 | the calls for the first k URLs do not depend on `htmls` |
| Capture.UrlActionsIgnoreHtmls | src/cli.js:66-87 | the calls for one URL do not depend on `htmls` |
| Capture.Page.constructor | src/cli.js:56 | a new page shows nothing yet and has no calls |
| Capture.Page.Goto | src/cli.js:71 | the page now shows the URL; the viewport is unchanged; the call is logged |
| Capture.Page.SetViewport | src/cli.js:74 | the page now renders at the viewport; the URL is unchanged; the call is logged |
| Capture.Page.Screenshot | src/cli.js:75-84 | what the page shows is unchanged; the screenshot and its path are logged |
| Capture.RunViewportTask | src/cli.js:69-85 | appends the calls of the viewport task: a navigation only at index 0, then resize and screenshot |
| Capture.RunUrlTask | src/cli.js:64-88 | appends the calls of all viewport tasks of one URL, in viewport order |
| Capture.RunTasks | src/cli.js:60-92 | appends exactly the calls of `Trace`, URL by URL |
| Capture.Run | src/cli.js:49-112 | refused exactly when there is no target, with the tool's message; otherwise a new page, starting blank, whose calls are exactly `Trace` of the prepared configuration, each screenshot showing what its file name names |

## Left out

- Argument parsing (`yargs`, the aliases, the `out-dir` to `outDir` renaming and the `/tmp/capptr` default) is a library. The model takes an already-parsed `Args` record whose entries are all text. yargs may hand a digits-only value such as `-v 1366` over as a number, on which `R.split` would throw before the target check; the model reads that token as the text `1366`, giving width 1366 and an `undefined` height.
- Launching the browser, opening the page, closing it, and the rendering and PNG encoding are a foreign engine. They are modelled only as the calls the `Page` records and their effect on what it shows.
- Capture.Page.Screenshot: the `type: 'png'` and `fullPage: true` options are not recorded, because they never vary.
- What the browser does with a `NaN`, `undefined` or zero dimension is not modelled. The viewport is recorded as given.
- `fs.ensureDir` on the output directory is filesystem I/O.
- Listr runs the tasks one after another and renders progress. The model is a plain sequential nested loop with no progress output.
- `filenamify-url` is a function parameter, with nothing assumed about it.
- `path.join` is simplified to putting `/` between directory and name, with no normalisation.
- `__dirname` is the `installDir` parameter.
- Config.ToNumber: only the empty text (0) and decimal numerals are read as numbers, exactly and without bound. JavaScript `Number` gives an IEEE double: numerals above 2^53 are rounded (`9007199254740993` reads as 9007199254740992). It also reads surrounding whitespace, signs, fractions, exponents (`1e3`), `Infinity` and the `0x`, `0b` and `0o` prefixes, all of which the model treats as `NaN`.
- Text.NatToString: writes every number as its full decimal numeral. A template literal writes a JavaScript number, an IEEE double: above 2^53 it writes the shortest digits that read back to the same double, padded with zeros (2^64 is written `18446744073709552000`), and from 10^21 on it uses exponent form (`1e+21`). For widths or heights above 2^53 the model's file name therefore differs from the tool's.
- The commented-out alternative loop in `run` is not code that runs.
- Errors raised by the browser during the run, and their logging in `.catch`, are not modelled. The model's page calls always succeed.
