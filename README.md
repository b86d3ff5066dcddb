# marp-dev-preview: the live-reload protocol, modelled in Dafny

marp-dev-preview is a development server for Marp slide decks. It renders a
markdown file to HTML and CSS and serves it over HTTP. When the file changes,
or a client posts new markdown to `/api/reload`, it pushes an `update` message
over a WebSocket to every open tab. The tab patches the slide container in
place, rewrites the theme style only when it changed, and re-indexes its
slides. Tabs also take remote commands (`goto`, `find`, `close_preview`)
posted to `/api/command`. Keyboard navigation is vim-like: `gg`, `G`, `j`/`k`,
the Ctrl scroll keys, `?` for help, and `:` followed by a slide number and
Enter.

The model has three layers.

- **The browser client** (`src/client.js`).
  - `ClientModel` is the reference definition. A `State` datatype holds the closure variables and the DOM parts the script touches. There is one transition function per event: a key press, a push message, each of the two timers.
  - `ClientPage.Tab` is a class with the same fields. Each listener and timer callback is a method, proved to perform exactly the `ClientModel` transition.
  - The invariant `ClientModel.Valid` describes the key machine:
    - the buffer holds digits only, and is empty outside command mode;
    - the prompt is visible exactly in command mode, showing `:` plus the buffer, or the red error while its reset timer is pending;
    - a pending `g` chord always has its reset timer.

  Every event preserves the invariant.
- **The server** (`src/marp-dev-preview.mjs` and the root `server.mjs`).
  - `Preview.Reload` renders once, serialises once and sends that one message to every connected client. The clients are an array of inboxes.
  - `Preview.OnFileChange` is the file watcher's handler.
  - `Preview.RenderPage` is the page template, reduced to the three things the client reads from it: the advertised WebSocket port, the `#marp-style` text and the `#marp-container` markup.
  - `Http.Respond` is the reference definition of the request handler. `Http.Server.Handle` runs it step by step: the body read chunk by chunk, `reload`, the send loop.
- **The protocol** (`Protocol`). End-to-end lemmas state what a tab does with what the server sends. They require only one thing of the serialiser and parser: `Protocol.RoundTrips`, that parsing a serialised value gives it back.

The model takes these as parameters:

- `JSON.parse` and `JSON.stringify`;
- the Marp renderer (it may fail);
- the file system (a read gives the contents, "no such file" or another error);
- the query `section[id]` over the container markup.

Scrolling, `window.close()`, style writes and timers are recorded in the state: a log of scrolls issued, a counter of style writes, a closed flag, and counts of pending timers. Firing a timer requires one to be pending.

Points where the code does less than its page or its names suggest; the model follows the code:

- **Timers do not re-check state.** Neither timer callback in `src/client.js` looks at the state before acting: the 500 ms chord reset (src/client.js:132) clears `lastKey` whatever it holds, and the 2000 ms error reset (src/client.js:103-107) leaves command mode and clears the buffer unconditionally. `ClientModel.ErrorTimerDiscardsLaterCommand` shows the error reset wiping a command typed after the failed one.
- **No Home or End handler.** The page's own help box lists Home and End for the first and last slide (src/marp-dev-preview.mjs:110-111), but the `keydown` listener in `src/client.js` has no branch for either key. Those keys only clear a pending chord, and any scrolling they cause is the browser's own.
- **`server.mjs` versus `src/server.mjs`.** `src/marp-dev-preview.mjs` imports `./server.mjs`, which resolves to the Express server in `src/server.mjs` with five parameters. But it calls `createServer` with the seven arguments of the root `server.mjs`. The root `server.mjs`, whose handlers match that call, is the one modelled.
- **Out-of-range remote goto.** A remote `goto` with an out-of-range number only logs. It shows no error prompt.

## Model

| member | source | states |
|---|---|---|
| Text.ParseDigits | src/client.js:96 | `parseInt` of a digit-only buffer is NaN for the empty buffer, else its decimal value |
| Text.ParseSingleChar | src/client.js:112 | a one-character key parses to a number exactly when it is an ASCII digit |
| Text.ParseNegative | src/client.js:71 | `parseInt("-" + digits)` is minus the digits' value, so a negative slide number reaches `goToSlide` as that number |
| Text.ParseIntToString | src/client.js:71 | `parseInt(String(n))` is `n` for every integer |
| Text.ParseInt | src/client.js:96 | reference definition of `parseInt(s, 10)`: skip leading blanks, take an optional sign and the longest digit prefix; NaN when no digit follows. Its properties are the four `Text.Parse…` lemmas above |
| Text.IntToString | src/client.js:71 | `String(n)` for an integer: a minus sign for a negative one, then decimal digits without leading zeros. `Text.ParseIntToString` shows `parseInt` reads it back |
| Text.Lower | src/client.js:37 | `toLowerCase` as ASCII case folding, letter by letter; `ClientModel.FindSlideByStringSpec` uses it through `ClientModel.Matches` |
| Text.Contains | src/client.js:40 | `text.includes(part)`: `part` occurs at some position of `text`, the empty string everywhere; `ClientModel.FirstMatch` is stated with it |
| Json.Truthy | src/client.js:70-72 | reference definition of JavaScript truthiness for a looked-up field: `undefined`, `null`, `false`, `0` and `""` are false, everything else true. `ClientModel.GotoMessage` and `ClientModel.FindMessage` use it for the `data.slide` and `data.string` tests |
| Json.Str | src/client.js:64 | `String(v)` on a parsed value, or `None` exactly when it throws (`Json.StringThrows`): strings unchanged, integers in decimal, arrays comma-joined with `null` elements empty, objects `[object Object]` unless they have their own `toString` key |
| Json.StringThrows | src/client.js:64 | reference definition of when `String(v)` throws: an object with its own `toString` key (not callable, and `valueOf` gives back the object), or an array that holds such a value at any depth |
| Json.JoinAll | src/client.js:64 | `join` over converted elements: `None` exactly when some element's conversion threw |
| Json.ToJsString | src/client.js:71 | `String(v)` of a field lookup, `None` exactly when it throws; a missing field is `undefined`. `ClientModel.NumericGoto` and `Text.ParseIntToString` show a numeric slide survives the string round trip |
| ClientModel.Loaded | src/client.js:6-12 | after `DOMContentLoaded` the tab: is in normal mode with no chord; has scrolled nowhere; shows neither the prompt nor the help box; indexes the container's sections; satisfies the invariant |
| ClientModel.FirstMatch | src/client.js:36-44 | the search result is the index of the first slide whose lower-cased text contains the lower-cased needle; no result exactly when no slide matches |
| ClientModel.DigitKeyIsParsedKey | src/client.js:112 | the digit-key test is exactly "one character that `parseInt` reads as a number" |
| ClientModel.IsDigitKey | src/client.js:112 | the digit-key test as one ASCII digit character; `ClientModel.DigitKeyIsParsedKey` proves it equal to the source's `length === 1 && !isNaN(parseInt(key, 10))` |
| ClientModel.OnKeyKeepsValid | src/client.js:93-168 | every key press keeps the key-machine invariant |
| ClientModel.CommandKeyKeepsValid | src/client.js:94-121 | every command-mode key keeps the invariant, including a failed Enter, which shows the red error with its reset timer pending |
| ClientModel.NormalKeyKeepsValid | src/client.js:123-167 | every normal-mode key keeps the invariant |
| ClientModel.ChordTimerKeepsValid | src/client.js:132 | the 500 ms chord reset keeps the invariant and clears the chord, leaving mode and buffer as they were |
| ClientModel.ErrorTimerKeepsValid | src/client.js:103-107 | the 2000 ms error reset keeps the invariant and always ends in normal mode with an empty buffer and a hidden prompt, chord and scrolls untouched |
| ClientModel.OnMessageKeepsKeys | src/client.js:53-80 | push messages never change the key machine, the prompt, the help box or the timers, and they keep the invariant |
| ClientModel.GoToSlideSpec | src/client.js:14-34 | `goToSlide(n)` is true exactly for 1 <= n <= slide count; then it scrolls to slide n-1; otherwise nothing changes |
| ClientModel.GoToSlide | src/client.js:14-34 | reference definition of `goToSlide(n)`: false for NaN, for n <= 0 and past the last slide; otherwise one smooth scroll to slide n-1 and true. `ClientModel.GoToSlideSpec` states it |
| ClientModel.FindSlideByStringSpec | src/client.js:36-51 | true exactly when some slide matches case-insensitively; then exactly one scroll happens, to the first match; otherwise nothing changes |
| ClientModel.FindSlideByString | src/client.js:36-51 | reference definition of `findSlideByString(s)` by `ClientModel.FirstMatch`; `ClientModel.FindSlideByStringSpec` states it |
| ClientModel.UpdatePrompt | src/client.js:82-91 | reference definition of `updatePrompt(text, isError)`: in command mode the prompt shows `text`, red for an error and white otherwise; outside it is hidden and white with its text kept. `ClientModel.CommandKeyKeepsValid` and `ClientModel.CommandModeEditing` use it |
| ClientModel.DropLast | src/client.js:110 | `command.slice(0, -1)`: the buffer without its last character, and the empty buffer stays empty. `ClientModel.CommandModeEditing` states the Backspace key with it |
| ClientModel.CommandKey | src/client.js:94-121 | reference definition of a command-mode key: Enter, Backspace, a digit, Escape, anything else ignored. `ClientModel.CommandModeEditing`, `ClientModel.CommandEnter` and `ClientModel.CommandKeyKeepsValid` state it |
| ClientModel.NormalKey | src/client.js:123-167 | reference definition of a normal-mode key, with the help toggle as written. `ClientModel.NormalKeys`, `ClientModel.ScrollKeys`, `ClientModel.DoubleG` and `ClientModel.NormalKeyKeepsValid` state it |
| ClientModel.OnKey | src/client.js:93-168 | reference definition of the `keydown` listener: `CommandKey` in command mode, `NormalKey` otherwise. `ClientModel.OnKeyKeepsValid` states the invariant it keeps |
| ClientModel.ChordTimerFires | src/client.js:132 | reference definition of the 500 ms callback: clears `lastKey`, whatever it holds. `ClientModel.ChordTimerKeepsValid` and `ClientModel.ChordExpires` state it |
| ClientModel.ErrorTimerFires | src/client.js:103-107 | reference definition of the 2000 ms callback: leaves command mode, clears the buffer and hides the prompt, whatever the state. `ClientModel.ErrorTimerKeepsValid` and `ClientModel.ErrorTimerDiscardsLaterCommand` state it |
| ClientModel.CommandModeEditing | src/client.js:109-120 | in command mode: a digit is appended; Backspace drops the last character (empty stays empty); Escape leaves with an empty buffer and hides the prompt; other keys change nothing; none of these scrolls or touches the chord |
| ClientModel.CommandEnter | src/client.js:95-108 | Enter on a buffer naming an existing slide scrolls there and leaves command mode; any other buffer, the empty one included, keeps the mode and the buffer, shows the red error and schedules its reset |
| ClientModel.TypeDigit | src/client.js:112-114 | one digit key appends the digit and shows `:` plus the buffer in white |
| ClientModel.TypingDigits | src/client.js:112-114 | typing any digit string in command mode appends it to the buffer, shown live in the white `:` prompt; this holds also while the red error of a failed Enter is showing, since the first digit rewrites the prompt |
| ClientModel.JumpByNumber | src/client.js:93-121 | `:`, then the digits of a number naming a slide, then Enter, scrolls to that slide and ends in normal mode with an empty buffer |
| ClientModel.JumpByBadNumber | src/client.js:93-121 | `:`, then a number naming no slide (or no digits), then Enter, scrolls nowhere and leaves the error shown in command mode |
| ClientModel.ErrorTimerDiscardsLaterCommand | src/client.js:101-107 | the error timer does not re-check state: after a failed Enter, Escape and a new `:` with digits, the first timer wipes the new command |
| ClientModel.DoubleG | src/client.js:123-130 | `gg` scrolls to the first slide if there is one and clears the chord |
| ClientModel.ChordExpires | src/client.js:131-133 | after `g`, the chord timer, then `g`, nothing has scrolled and a new chord is pending |
| ClientModel.NormalKeys | src/client.js:134-167 | `G` scrolls to the last slide if any; `:` enters command mode with an empty buffer and visible prompt; `?` writes the as-written toggle (`block` exactly when the inline value was `none`, otherwise `none`); every key but a first `g` clears the chord |
| ClientModel.ToggleHelpAsWritten | src/client.js:163 | the `?` toggle as written: `block` when the inline value is `none`, `none` for any other value, the initial empty one included. `Protocol.ToggleHelpAsWrittenShows` and `Protocol.FirstHelpPressShowsNothing` state what it shows |
| ClientModel.ToggleHelp | src/client.js:162-163 | the corrected toggle: `none` when the box is shown, `block` otherwise. `Protocol.ToggleHelpFlips` states that it flips visibility at every press |
| ClientModel.ScrollKeys | src/client.js:144-161 | `j`/`k` scroll a tenth; Ctrl with `d`/`u`, `f`/`n` or `b`/`p` scrolls half a page or a page; without Ctrl those six keys only clear the chord |
| ClientModel.UpdateSpec | src/client.js:62-69 | a string update puts `html` in the container (when present) and `css` in the style; the style is written only if it differs; slides are re-indexed; mode, buffer and scrolls are unchanged |
| ClientModel.ApplyUpdate | src/client.js:62-69 | reference definition of the `update` branch, where a throwing step ends the handler and the throw is caught. `ClientModel.UpdateSpec`, `ClientModel.UpdateIdempotent`, `ClientModel.UpdateWithoutStyle`, `ClientModel.NonStringCssAlwaysWritten` and `ClientModel.ThrowingUpdateDropped` state it |
| ClientModel.InnerHtmlText | src/client.js:67 | what the `innerHTML` setter stores for `data.css`, or `None` exactly when the conversion throws: `null` becomes empty, anything else `String(v)` (a missing field `undefined`). `ClientModel.NonStringCssAlwaysWritten` and `ClientModel.ThrowingUpdateDropped` use it |
| ClientModel.OnMessage | src/client.js:53-80 | reference definition of `ws.onmessage`: an unparsable message is ignored; then `update`, `goto`, `find` and `close_preview` in that order. `ClientModel.OnMessageKeepsKeys`, `ClientModel.GotoMessage`, `ClientModel.FindMessage` and `ClientModel.UnrecognisedMessageIgnored` state it |
| ClientModel.UpdateIdempotent | src/client.js:62-69 | applying the same update twice equals applying it once, so the second writes no style |
| ClientModel.UpdateWithoutStyle | src/client.js:62-69 | without `#marp-style`, the container is patched unless its markup throws on conversion; the slides are not re-indexed and no style is written |
| ClientModel.NonStringCssAlwaysWritten | src/client.js:66-67 | a `css` that is not a string is written on every update, unless its conversion throws or the markup's conversion threw first; then nothing is written |
| ClientModel.ThrowingUpdateDropped | src/client.js:62-69 | markup whose `String(v)` throws, with a container present, leaves the tab exactly as it was; a `css` whose conversion throws leaves the container patched, nothing written and the slides not re-indexed |
| ClientModel.LastUpdateWins | src/client.js:56-69 | after any non-empty sequence of updates, the tab shows the last one's markup and style with slides re-indexed |
| ClientModel.UnrecognisedMessageIgnored | src/client.js:53-80 | a message that does not parse, or has no recognised `type`/`command`, leaves the tab unchanged |
| ClientModel.CloseMessage | src/client.js:74-75 | a `close_preview` command closes the window and changes nothing else |
| ClientModel.GotoMessage | src/client.js:70-71 | a `goto` with a falsy `slide` does nothing; a truthy one jumps as `goToSlide(parseInt(String(slide)))`, and one whose conversion throws does nothing |
| ClientModel.NumericGoto | src/client.js:71 | a numeric `slide` reads back as exactly that slide number |
| ClientModel.ParseSlide | src/client.js:71 | `parseInt(data.slide, 10)` through `String(v)`; a throwing conversion gives `None`, since it does nothing, as `NaN` does. `ClientModel.NumericGoto` and `ClientModel.GotoMessage` state it |
| ClientModel.FindMessage | src/client.js:72-73 | a `find` searches exactly when `string` is a non-empty string; otherwise nothing changes |
| ClientPage.Tab.constructor | src/client.js:6-12 | the new tab is the `Loaded` state and satisfies the invariant |
| ClientPage.Tab.GoToSlide | src/client.js:14-34 | the method's result and new state are `ClientModel.GoToSlide`'s |
| ClientPage.Tab.FindSlideByString | src/client.js:36-51 | the `found`-flag loop scrolls at the first match only, as `ClientModel.FindSlideByString` |
| ClientPage.Tab.UpdatePrompt | src/client.js:82-91 | the prompt update is `ClientModel.UpdatePrompt`; outside command mode it hides the prompt and resets its colour |
| ClientPage.Tab.HandleKey | src/client.js:93-168 | the `keydown` listener performs `ClientModel.OnKey` and keeps the invariant |
| ClientPage.Tab.CommandKey | src/client.js:94-121 | the command-mode branch performs `ClientModel.CommandKey` |
| ClientPage.Tab.NormalKey | src/client.js:123-167 | the normal-mode branch performs `ClientModel.NormalKey`, the help toggle as written included |
| ClientPage.Tab.ScrollBy | src/client.js:144-161 | a scroll key logs its scroll and clears the chord |
| ClientPage.Tab.ChordTimerFires | src/client.js:132 | the chord callback clears `lastKey` and keeps the invariant |
| ClientPage.Tab.ErrorTimerFires | src/client.js:103-107 | the error callback leaves command mode, clears the buffer, hides the prompt and keeps the invariant |
| ClientPage.Tab.HandleMessage | src/client.js:53-80 | `ws.onmessage` performs `ClientModel.OnMessage` and keeps the invariant |
| ClientPage.Tab.ApplyUpdate | src/client.js:62-69 | the `update` branch, with its early exits where a conversion throws, performs `ClientModel.ApplyUpdate` |
| Preview.Broadcast | src/marp-dev-preview.mjs:134-136 | every connected client receives the message exactly once, appended to what it had |
| Preview.Reload | src/marp-dev-preview.mjs:126-142 | true exactly when rendering succeeds; then every client receives the one serialised `update`; otherwise no client receives anything |
| Preview.OnFileChange | src/marp-dev-preview.mjs:144-148 | a change reloads exactly the file's contents and reports `reload`'s answer; a failed read sends nothing and ends the server (`Crashed`) |
| Preview.ChangeOutcomeAsWritten | src/marp-dev-preview.mjs:144-148 | the `change` listener as written: a readable file is reloaded with `reload`'s answer; a failed read is an unhandled rejection, `Crashed`. `Preview.OnFileChange` performs it and `Preview.FailedReadEndsServer` states the crash |
| Preview.GuardedChangeOutcome | src/marp-dev-preview.mjs:144-148 | the listener with its read guarded: the same on a readable file, `Skipped` on a failed read. `Preview.GuardedWatcherSurvives` relates it to the listener as written |
| Preview.FailedReadEndsServer | src/marp-dev-preview.mjs:146 | as written, a file that cannot be read when its change arrives ends the server; the guarded listener skips the change |
| Preview.GuardedWatcherSurvives | src/marp-dev-preview.mjs:144-148 | with the read guarded, the watcher never ends the server, agrees with the listener as written on every readable file, and skips exactly the unreadable ones |
| Preview.UpdateMessage | src/marp-dev-preview.mjs:129-133 | the object `reload` serialises: `type` `update` with the rendered `html` and `css`. `Protocol.UpdateArrivesUntransformed` shows a tab applies both unchanged |
| Preview.PageFor | src/marp-dev-preview.mjs:90-123 | the served document as the client reads it: `ws-port` is `Preview.ChannelPort(port)`, `#marp-style` the css alone, `#marp-container` the indented html. `Preview.RenderPage` states it for the page served |
| Preview.RenderPage | src/marp-dev-preview.mjs:44-123 | the page exists exactly when the file reads and renders; `#marp-style` holds the css alone; the container holds the html; the advertised port is `port + 1` |
| Http.ReadBody | server.mjs:36-39 | the chunk-by-chunk read yields the chunks concatenated in arrival order |
| Http.ConcatSplit | server.mjs:37-39 | the body does not depend on how it was split into chunks |
| Http.Concat | server.mjs:37-39 | `body += chunk.toString()` over the chunks in arrival order; `Http.ReadBody` is proved to compute it and `Http.ConcatSplit` states it does not depend on the split |
| Http.ExtNameOfFile | server.mjs:70-72 | the extension used for the content type is the file name's part from its last dot |
| Http.ExtName | server.mjs:71 | reference definition of `path.extname` on POSIX paths: from the last `.` of the last segment, trailing slashes ignored; empty without a dot, for a leading dot and for `..`. `Http.ExtNameOfFile` states it for asset paths |
| Http.ContentType | server.mjs:72 | the extension table's type for a listed extension, `application/octet-stream` for any other; `Http.AssetEndpoint` states it for the response |
| Http.MimeTypes | server.mjs:6-22 | the fifteen extensions of the table with their types, written out as the source lists them; `Http.AssetEndpoint` states the lookup |
| Http.JoinPath | server.mjs:70 | `path.join(markdownDir, req.url)` as joining with `/`; `Http.ExtNameOfFile` and `Http.SegmentOfJoin` show the extension comes from the last segment |
| Http.Server.constructor | server.mjs:24 | the server keeps its configuration and the WebSocket clients |
| Http.Server.Handle | server.mjs:25-91 | the response is `Respond`'s; on a broadcast every client receives its message once; otherwise no client changes |
| Http.RoutePriority | server.mjs:27-69 | `/` and `/client.js` win for any method; the API routes need POST; every other request is an asset |
| Http.RouteOf | server.mjs:27-69 | reference definition of the handler's test order; `Http.RoutePriority` states it |
| Http.Respond | server.mjs:25-91 | reference definition of the request handler: the response and the message broadcast while answering, if any. `Http.ReloadEndpoint`, `Http.CommandEndpoint`, `Http.AssetEndpoint` and `Http.Server.Handle` state it |
| Http.ReloadEndpoint | server.mjs:35-50 | `/api/reload` gives 200 `{status:'ok'}` and broadcasts the update exactly when the body renders; otherwise 500 with the error message and no broadcast |
| Http.CommandEndpoint | server.mjs:51-68 | `/api/command` gives 400 `Invalid JSON` with no broadcast for a body that does not parse; otherwise it broadcasts the re-serialised command and echoes it in a 200 |
| Http.AssetEndpoint | server.mjs:69-91 | an asset gets 200 with its type from the extension table (default `application/octet-stream`); 404 `Not Found` when missing; 500 on another read error; never a broadcast |
| Protocol.UpdateArrivesUntransformed | src/marp-dev-preview.mjs:128-136 | a tab receiving `reload`'s broadcast applies the rendered html and css unchanged |
| Protocol.ReloadOfServedMarkdownKeepsStyle | src/client.js:62-69 | reloading the markdown the page was served from leaves the style untouched (zero writes), sets the container to the rendered markup, re-indexes, and changes neither keys nor scroll |
| Protocol.PostedCommandReachesTab | server.mjs:56-60 | a tab reacts to `/api/command`'s broadcast exactly as it would to the posted body |
| Protocol.PostedGotoScrolls | server.mjs:56-60 | posting `{"command":"goto","slide":3}` scrolls a five-slide tab to its third slide |
| Protocol.TabMissesChannel | src/client.js:2-4 | as written, the tab connects to the HTTP port, not the advertised WebSocket port |
| Protocol.TabReachesChannel | src/marp-dev-preview.mjs:94 | with the advertised port, every served page leads the tab to the WebSocket server |
| Protocol.SocketPortAsWritten | src/client.js:2-4 | the port the tab connects to as written: `window.location.host`, the HTTP server's own port. `Protocol.TabMissesChannel` shows it differs from the advertised one |
| Protocol.SocketPort | src/marp-dev-preview.mjs:94 | the corrected address: the port the page advertises in its `ws-port` meta tag. `Protocol.TabReachesChannel` shows it is the WebSocket server's |
| Protocol.FirstHelpPressShowsNothing | src/client.js:162-163 | as written, the first `?` after loading writes `none` and leaves the help box hidden, and only the second press shows it; the corrected toggle shows it at once |
| Protocol.ToggleHelpFlips | src/client.js:162-163 | the corrected toggle flips visibility at every press, whatever the inline value |
| Protocol.ToggleHelpAsWrittenShows | src/client.js:163 | as written, a press shows the box exactly when the inline value was `none` |

## Left out

- **DOM patching.** morphdom's diffing is left out: the container is modelled as its markup string. After an update it holds the new markup exactly.
- **Scroll amounts.** `scrollIntoView`, `window.scrollBy` and the viewport fractions (0.1, 0.5, 0.9 of `innerHeight`) are recorded as scroll requests, not positions. Floating point is not modelled.
- **Slide indexing.** The slide list is what a `section[id]` query returns over the container markup, taken as a parameter.
- **Text matching.** Slide text is compared after ASCII-only lower-casing. Unicode case mapping is not modelled.
- **`parseInt`.**
  - Only space, tab, line feed, vertical tab, form feed and carriage return are trimmed. The non-ASCII white space and line terminators `parseInt` also skips (no-break space, U+2028 and the like) are not.
  - Integers are unbounded, so there is no float rounding of long digit strings.
  - JSON numbers are integers only. Exponent notation is not modelled: `String(n)` writes a number of magnitude at least 1e21 as, say, `1e+21`, which `parseInt` reads as 1. So a remote `goto` with slide 1e21 jumps to the first slide, while the model's integer jumps nowhere.
- **`JSON.parse` and `JSON.stringify`** are parameters. The end-to-end lemmas require that they round-trip.
- **Transport failures.** Failures of `ws.send`, connection churn in `wss.clients`, and a throwing serialiser are left out. `Preview.Reload` fails only when the renderer fails.
- **A failing send during `/api/command`.** A `ws.send` that throws inside the command handler's `try` would answer 400 `Invalid JSON` after a partial broadcast. Like every send failure, this is not modelled.
- **Reading the style back.** `innerHTML` of `#marp-style` is taken to read back the text last written. Assigning `null` stores the empty string (`ClientModel.InnerHtmlText`). The browser's serialisation of the element's content is not modelled.
- **Request bodies.** Chunks are strings: `chunk.toString()` splitting a multi-byte character is not modelled.
- **Paths.** `path.join` is modelled as joining with `/` without normalising `.`, `..` or the doubled separator every asset URL gives (`dir + "/" + "/x.png"`). `Http.ExtName` follows `path.extname` for POSIX paths.
- **Headers and logging.** Response headers other than `Content-Type`, console output and `server.listen` are left out.
- **Time.** Timers are counts of pending callbacks, so their 500 ms and 2000 ms windows are not clock times. The model fires a callback only where a lemma or method says so.
- **Parts of the repository outside this model.**
  - The command-line entry and argument parsing (`src/args.mjs`).
  - Marp initialisation and rendering (`src/marp-utils.mjs`), which become the renderer parameter.
  - The Express server in `src/server.mjs`.
  - The legacy top-level `marp-preview.mjs` and `marp-dev-preview.mjs`.
- ClientModel.UpdateAll: folds only string updates, as `reload` sends them. Non-string fields are covered one update at a time by `ClientModel.NonStringCssAlwaysWritten` and `ClientModel.UpdateWithoutStyle`.
- Protocol.TabReachesChannel: the client script has no address. The protocol lemmas take as given that the tab receives the broadcasts, which follows from connecting to the advertised port (see Findings).

## Findings

| source | as written | input that shows it | evidently intended | confidence | as-written member | corrected member |
|---|---|---|---|---|---|---|
| src/client.js:163 | `?` tests the inline `style.display === 'none'`, which starts empty, while the page's stylesheet hides the box | load the page and press `?` once: the inline display becomes `none` and the box stays hidden | the first `?` shows the help box; each press flips it | high (not executed) | Protocol.FirstHelpPressShowsNothing | Protocol.ToggleHelpFlips |
| src/marp-dev-preview.mjs:144-147 | the `change` listener awaits `fs.readFile` outside any `try`, and nothing handles the rejected promise | the file is deleted, or made unreadable, after chokidar emits `change` and before the handler's `fs.readFile` runs (a race, for instance `rm` on the deck just after a save): the read rejects with `ENOENT` or `EACCES`, and under Node 15 or later the unhandled rejection ends the server | a failed read skips that change and the watcher goes on | medium (not executed); it needs that race | Preview.FailedReadEndsServer | Preview.GuardedWatcherSurvives |
| src/client.js:2-4 | the WebSocket connects to `window.location.host`, the HTTP port, while the server listens on `port + 1` (src/marp-dev-preview.mjs:42) | serve on port 8080: the page advertises 8081 in its `ws-port` meta tag, and the tab connects to 8080, where nothing answers WebSocket upgrades | connect to the port in the `ws-port` meta tag (src/marp-dev-preview.mjs:94) | high (not executed) | Protocol.TabMissesChannel | Protocol.TabReachesChannel |

The key machine (`ClientModel.NormalKey` and `ClientPage.Tab`) and `Preview.OnFileChange` follow the code as written: `ClientModel.ToggleHelpAsWritten`, and `Preview.ChangeOutcomeAsWritten` with its `Crashed` outcome. The corrected definitions are stated beside them: `ClientModel.ToggleHelp` and `Preview.GuardedChangeOutcome`. For the address, the as-written definition is `Protocol.SocketPortAsWritten`, the page's own port; the corrected one is `Protocol.SocketPort`, and the protocol lemmas take the corrected address as given (see Left out).
