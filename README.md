# live-server in Dafny

This is a model of live-server, a small development web server. It serves a directory and splices a
reload script into every HTML page it serves. It watches the directory for changes and tells every
connected browser over a WebSocket to reload when a file changes. The model covers both revisions of
the server object, index.ts and index.js, a different revision of it written in JavaScript. It also covers both
command-line scripts, live-server.ts and live-server.js.

Modules, one concept each:

- `Text`: the JavaScript string built-ins the source relies on: `indexOf`, `split` with a
  one-character separator, and decimal numerals.
- `HtmlEscape`: the `escape` helper. It is four global replacements applied in order.
- `Injector`: `/(<\/body>|<\/head>)/.exec` followed by `String.replace`. This splices the reload
  fragment in front of the earliest closing tag.
- `StaticServer`: the `staticServer(root)` middleware. `Disposition` and `Respond` are pure
  functions of the request, the file system and `send`'s outcome. `Handle` is the handler as
  written: it updates a `Response` object in place and is proved against `Respond`.
- `WatchIgnore`: the watcher's ignore chain. The built-in matcher for dotfiles and editor
  temporaries comes first, then the caller's matchers.
- `ReloadChannel`: the WebSocket server's tracked clients and what has been sent to each. This
  covers `connection`, `send` and the `reload` broadcast.
- `Handles`: what both revisions share: the options of `start`, the request-log policy, the
  watcher events, and the server and watcher handles.
- `SupervisorTs` and `SupervisorJs`: the `LiveServer` object of index.ts and of index.js. Each is a
  class whose fields `start` and the event handlers update.
- `ArgScan`: the right-to-left loop over `process.argv`. It is shared by both scripts.
- `CommandLine`: the path patch that follows the loop, and the call to `start`.

The static responder reads the files relative to the process's working directory, as the code
does: stat and read go to `"." + reqpath`, and only `send` gets `root`. Several things the code
reaches for are not visible to the model: the MIME table, the `send` stream, the environment
variable `IP` and the network interfaces. They enter as parameters of the operations that use them
(`isHtml`, `send`, `envIp`, `ifaces`, `cwd`).

Three behaviours of the code are easy to misread; the model follows the code:

- The closing-tag search is case-sensitive, because the regular expression has no `i` flag.
- The fragment goes before the EARLIEST of `</body>` and `</head>`, not before `</body>` first. The
  lemma `Injector.HeadWinsWhenFirst` states that case.
- A file `send` cannot find is handed on with `next()` (reply `Next`). The responder does not answer it
  with its own `File <path> not found.` 404; serve-index and connect, which are not modelled, decide the
  reply.

## Model

| member | source | states |
|---|---|---|
| Text.ContainsMeaning | live-server.ts:26 | `arg.indexOf(t) > -1` holds exactly when `t` occurs at some index of `arg`, and exactly when `indexOf` returns an index |
| Text.IndexOf | live-server.ts:26 | `indexOf` returns an index at or after `from` where the needle occurs, and no earlier index from `from` on holds it; `None` means no index at or after `from` holds it |
| Text.SplitJoin | live-server.ts:36 | `split(",")` gives at least one piece, no piece holds the separator, and joining the pieces with it gives the input back |
| HtmlEscape.Escape | index.ts:29-35 | the four replacements in source order: `&` not followed by `\w+;` becomes `&amp;`, then every `<`, `>`, `"` becomes its entity; what this guarantees is proved by `EscapeIsSafe`, `EscapeFixpoints`, `EscapeIdempotent` and `EscapeIsEscapeEach` |
| HtmlEscape.EscapeIsSafe | index.ts:29-35 | the escaped text holds no raw `<`, `>` or `"`, and every `&` in it starts an entity `&\w+;` |
| HtmlEscape.EscapeFixpoints | index.ts:29-35 | `escape` leaves a text unchanged if and only if the text has no `<`, `>`, `"` and no `&` that fails to start an entity |
| HtmlEscape.EscapeIdempotent | index.ts:29-35 | escaping an already escaped text changes nothing |
| HtmlEscape.EscapeIsEscapeEach | index.js:18-24 | the four global replacements agree with a one-pass, character-by-character reference: an entity-starting `&` is kept, any other `&` becomes `&amp;`, and `<`, `>`, `"` become their entities |
| Injector.Inject | index.ts:79-84 | the page with the fragment put in front of the tag `exec` found, or the page itself; `InjectSplice` proves the splice at the earliest tag and the round trip |
| Injector.ExecClosingTag | index.ts:79 | `exec` from a position returns `</body>` or `</head>` at an index where it occurs, and neither tag starts at any earlier index from that position |
| Injector.InjectionPoint | index.ts:79 | the injection index starts a closing tag, and no earlier index does; none exists exactly when the result is `None` |
| Injector.FirstOccurrenceIsMatch | index.ts:79-81 | `contents.replace(match[0], …)` finds its first occurrence at the very index `exec` matched |
| Injector.InjectAtMatch | index.ts:81 | the replace inserts the fragment exactly where the matched tag starts |
| Injector.InjectSplice | index.ts:79-84 | without a closing tag the page is unchanged; with one, the result is the page with the fragment inserted at the earliest tag, it is longer by exactly the fragment, and cutting the fragment out gives the page back |
| Injector.HeadWinsWhenFirst | index.ts:79-81 | a page whose first closing tag is `</head>` gets the fragment before it, even when a `</body>` follows |
| StaticServer.Disposition | index.ts:40-89 | methods other than GET/HEAD and missing or empty pathnames go to `next()`; the reply is a 301 exactly when the path is a directory without a trailing slash; served, 404 and `send` replies only arise for a GET or HEAD request with a non-empty path |
| StaticServer.Respond | index.ts:89-103 | a request that `Disposition` does not hand to `send` gets exactly its disposition; one it hands to `send` gets `AfterSend` of `send`'s outcome for that path; no reply is left waiting on `send` |
| StaticServer.AfterSend | index.ts:91-102 | the request goes on with `next()` exactly when `send`'s error has status 404, to `next(err)` exactly for any other error status, is streamed exactly when `send` pipes the file, and is redirected exactly on the `directory` event |
| StaticServer.SendErrorPassedOn | index.ts:91-96 | a `send` error with status 404 calls `next()`, any other status calls `next(err)` with that status |
| StaticServer.SendDirectoryRedirect | index.ts:97-102 | on `send`'s `directory` event the reply is a 301 to the original URL's pathname plus `/`, with that pathname escaped in the body: no markup and no stray `&` |
| StaticServer.DirectoryRedirect | index.ts:59-64 | a directory asked for without its trailing slash is redirected to the path plus `/`; the body shows the path escaped, with no markup and no stray `&` |
| StaticServer.IndexRewrite | index.ts:51-58 | a directory with a trailing slash whose `/index.html` stats is served from `reqpath + "/index.html"`: injected if HTML and readable, 404 if HTML and unreadable, handed to `send` otherwise |
| StaticServer.PathUnchangedWithoutIndex | index.ts:49-69 | when the stat fails, finds a file, or finds no index.html, the path is used unchanged, with the same three outcomes |
| StaticServer.ServedHtmlIsInjected | index.ts:73-84 | a served HTML page is its readable file with the fragment before the earliest closing tag, or the file itself when there is no closing tag |
| StaticServer.SendOnlyForOtherTypes | index.ts:89-96 | only non-HTML paths reach `send`, and `send`'s 404 falls through to `next()` |
| StaticServer.Handle | index.ts:39-105 | the handler updates the response, and calls `next`, exactly as `Respond` says: status, headers in order, body, piping, and the `next` call for every outcome, with the response untouched when it calls `next` |
| StaticServer.WriteHtml | index.ts:76-84 | the HTML branch adds the three headers in order and ends the response with the injected page; the status is kept |
| StaticServer.SendStream | index.ts:90-103 | the `send` stream's `error` and `directory` handlers and the pipe act as `AfterSend` says |
| WatchIgnore.DefaultIgnored | index.ts:196 | the built-in matcher: never `.` itself, otherwise a path whose basename starts with `.` or `#` or ends with `__` or `~`; `ChildIgnoredByName` proves it judges a child by its name |
| WatchIgnore.IgnoreChain | index.ts:194-200 | the built-in matcher followed by the caller's matchers, if any; `IgnoreChainMeaning` proves what the chain ignores |
| WatchIgnore.BasenameOfChild | index.ts:196 | `path.basename` of `dir/name` is `name`, for any directory part |
| WatchIgnore.TopLevelIgnoredByName | index.ts:196 | a top-level entry reported without a directory part has its own name as basename and is ignored exactly when that name starts with `.` or `#` or ends with `__` or `~`; `.` itself never is |
| WatchIgnore.ChildIgnoredByName | index.ts:194-197 | the built-in matcher ignores an entry of any directory exactly when the entry's name starts with `.` or `#` or ends with `__` or `~` |
| WatchIgnore.IgnoreChainMeaning | index.ts:194-200 | the chain starts with the built-in matcher, then holds the caller's matchers in order; it ignores a path exactly when the built-in matcher or one of the caller's matchers does |
| Handles.RootOrCwd | index.ts:135 | a non-empty root is kept; an absent or empty root gives the working directory |
| Handles.LogPolicy | index.ts:144-151 | no request logger is installed exactly when the level is below 2 |
| Handles.LogPolicyMeaning | index.ts:144-151 | level 2 logs exactly the requests with status 400 or more, and a level above 2 logs every request |
| Handles.HiddenEntriesNeverEmitted | index.ts:194-207 | whatever matchers the caller adds, a change to `.git`, `#x#`, `x~` or `x__` inside any directory, or at the top level of a watched `.` (path equal to the name, other than `.`), is ignored by the watcher |
| Handles.FsWatcher.Emits | index.ts:203-207 | an open watcher passes on every event except a change to a path its chain matches; `HiddenEntriesNeverEmitted` shows hidden and temporary entries are never passed on |
| Handles.HttpServer.Listen | index.ts:183 | each `listen` call is recorded after the earlier ones |
| Handles.FsWatcher.constructor | index.ts:203-207 | the watcher keeps the paths, the polling flag, the ignore chain and `ignoreInitial` it is given |
| ReloadChannel.ClientRegistry.constructor | index.ts:186-189 | a new WebSocket server tracks no clients and has sent nothing |
| ReloadChannel.ClientRegistry.Connect | index.ts:186-191 | a connecting socket gets a fresh id and joins the end of the tracked list with an empty outbox; the registry stays consistent |
| ReloadChannel.ClientRegistry.Send | index.ts:191 | `ws.send(msg)` appends `msg` to that one client's outbox and changes nothing else |
| ReloadChannel.ClientRegistry.Disconnect | index.ts:186-189 | a closed socket leaves the tracked list, the others keep their order, and the outboxes stay as they are |
| ReloadChannel.Without | index.ts:186-189 | removing a client keeps exactly the other tracked clients and keeps them distinct |
| ReloadChannel.WithoutAbsent | index.ts:186-189 | removing a client that is not tracked leaves the tracked list unchanged |
| ReloadChannel.WithoutAt | index.ts:186-189 | removing a tracked client cuts it out at its position, so the others keep their order |
| ReloadChannel.ClientRegistry.Broadcast | index.ts:214 | `clients.forEach(ws => ws.send(msg))` appends `msg` to every tracked client's outbox and to no other outbox, with the tracked list unchanged |
| ReloadChannel.BroadcastDeliversOnce | index.ts:214 | after a broadcast each tracked client holds exactly one more copy of the message and an untracked one no more; earlier messages are kept as a prefix |
| SupervisorTs.LiveServer.constructor | index.ts:126-129 | the object starts with no server, no watcher and log level 2 |
| SupervisorTs.LiveServer.Start | index.ts:130-231 | the defaults are port 8080 (only when undefined), polling off, root the working directory, watch `[root]`, level 2; the server listens on the port with no host; a fresh WebSocket server has no clients; the watcher gets the ignore chain and `ignoreInitial`; `server` is left as it was |
| SupervisorTs.LiveServer.OnError | index.ts:159-162 | any server error, an address in use included, closes the watcher and the recorded server |
| SupervisorTs.LiveServer.OnListening | index.ts:165-180 | the server is recorded; a missing address is reported; otherwise the root and port are announced at level 1 and above, and nothing is announced below |
| SupervisorTs.LiveServer.OnConnection | index.ts:191 | a new connection is tracked and receives exactly `"connected"` |
| SupervisorTs.LiveServer.OnWatcherEvent | index.ts:209-228 | each of the five change events that the open watcher does not ignore sends one `"reload"` to every tracked client; `ready`, `error`, ignored paths and a closed watcher send nothing |
| SupervisorTs.LiveServer.Shutdown | index.ts:233-241 | the watcher, if any, and the server, if `listening` recorded one, are closed; the listen history is kept |
| SupervisorJs.HostFromEnv | index.js:107 | the host is `IP` when that variable is set and non-empty, otherwise `0.0.0.0` |
| SupervisorJs.UrlPortRoundTrip | index.js:154-155 | every URL begins with `http://` and its port reads back from the digits after the last `:`, whatever the host looks like |
| SupervisorJs.FlattenIPv4Members | index.js:159-168 | an address is collected exactly when it is IPv4 and belongs to some interface |
| SupervisorJs.CollectIPv4 | index.js:159-168 | the `reduce`/`push` loop collects the IPv4 addresses interface by interface, in order |
| SupervisorJs.ServeUrls | index.js:152-172 | the list of serve URLs: one per IPv4 interface address at a level above 2 on the wildcard address, else the single serve URL; its properties are `ServeUrlsUseBoundPort` and `ServeUrlsPerInterface` |
| SupervisorJs.Announce | index.js:152-184 | silence below level 1; otherwise the one URL or the list when the serve and open URLs agree, and both URLs when they differ, as in the nested `if`/`else` of the handler |
| SupervisorJs.ServeUrlsUseBoundPort | index.js:152-172 | every announced URL carries the port actually bound; without the verbose wildcard case it is the one serve URL, with `0.0.0.0` shown as `127.0.0.1` |
| SupervisorJs.ServeUrlsPerInterface | index.js:157-172 | at a level above 2 on the wildcard address there is one URL per IPv4 interface address, in order, and every such address gets one |
| SupervisorJs.OpenHandles | index.js:187-206 | the server listens on the port and host, the WebSocket server tracks no clients, and the watcher gets the given paths, polling flag and chain with `ignoreInitial` |
| SupervisorJs.LiveServer.constructor | index.js:101-104 | the object starts with no server, no watcher and log level 2 |
| SupervisorJs.LiveServer.Start | index.js:105-227 | like index.ts, except that the host comes from `IP` or is the wildcard, and the server listens on that port and host |
| SupervisorJs.LiveServer.OnError | index.js:131-143 | an address in use makes the server listen again on port 0 with the same host and closes nothing; any other error closes the watcher and the recorded server |
| SupervisorJs.LiveServer.OnListening | index.js:145-185 | the server is recorded; a missing address is reported; otherwise the announcement is `Announce` of the bound address: the URLs, the single URL, or the open URL and the serve URL when they differ, or silence below level 1 |
| SupervisorJs.LiveServer.OnConnection | index.js:192 | a new connection is tracked and receives exactly `"connected"` |
| SupervisorJs.LiveServer.OnWatcherEvent | index.js:207-225 | as in index.ts: one `"reload"` per tracked client for each change the watcher passes on |
| SupervisorJs.LiveServer.Shutdown | index.js:228-236 | the watcher, if any, and the recorded server, if any, are closed |
| ArgScan.Classify | live-server.ts:25-64 | the `if`/`else if` chain for one argument: `--port=`, `--watch=` and `--ignore=` are found anywhere in it with their value taken after the first 7, 8 or 9 characters; a `--port=` whose text is not an integer leaves the argument in place and tries no other option; `PortArgRoundTrip` and `ListArgPieces` state the option values |
| ArgScan.ScanFrom | live-server.ts:24-65 | the loop over a stretch of arguments from its last element down, as a recursive function; `ScanFromExits`, `ScanFromKeeps` and `ScanFromFlags` state its results |
| ArgScan.Scan | live-server.ts:24-65 | the loop over `process.argv` from index 2 on, the first two elements kept; `ScanMeaning` states its result and `ScanArgv` is proved equal to it |
| ArgScan.IntTextRoundTrip | live-server.ts:27-29 | every printed integer passes the `parseInt(s, 10) === +s` test and reads back as itself |
| ArgScan.ScanArgv | live-server.ts:24-65 | the loop that splices its copy of `argv` from the last index down to 2 ends as the specification `Scan` says |
| ArgScan.ScanFromExits | live-server.ts:52-64 | over any stretch of arguments the loop exits exactly when one of them is `--version`, `-v`, `--help` or `-h` |
| ArgScan.ScanFromKeeps | live-server.ts:24-65 | when the loop does not exit, it leaves exactly the unrecognised arguments, in their order |
| ArgScan.ScanFromFlags | live-server.ts:24-65 | when the loop does not exit, each option takes the value of its leftmost occurrence, or keeps the value it had |
| ArgScan.ScanMeaning | live-server.ts:24-65 | the process exits exactly when an argument from index 2 on asks for the version or the usage; otherwise `argv` keeps its first two elements and the unrecognised arguments, and port, watch, ignore, level and poll come from their leftmost occurrence or default to 8080, none, none, 2 and false |
| ArgScan.PortArgRoundTrip | live-server.ts:26-33 | `--port=` followed by any printed integer sets the port to that integer |
| ArgScan.ListArgPieces | live-server.ts:34-43 | `--watch=` and `--ignore=` values split at every comma into comma-free pieces that join back to the value, unless an earlier option name occurs in the argument |
| CommandLine.JoinPath | live-server.ts:72 | `path.join` never gives the empty string |
| CommandLine.JoinedChild | live-server.ts:71-73 | a name joined under a root is `root/name`, its basename is the name, and the built-in matcher judges it by that name alone |
| CommandLine.Patched | live-server.ts:67-79 | the root is the first argument left in place or `""`, and the watch and ignore paths are joined to it; `CommandLineMeaning` states the whole result |
| CommandLine.PatchedAsWritten | live-server.js:54-61 | the same patch except that no ignore list is passed to `start`; `IgnoreDroppedAsWritten` and `IgnoreDroppedWitness` state the difference |
| CommandLine.ParseCommandLine | live-server.ts:24-79 | the script up to `start` gives exactly `Patched(Scan(argv))` |
| CommandLine.CommandLineMeaning | live-server.ts:67-81 | the script quits exactly when an exit argument is present; otherwise `start` gets the first kept argument (or `""`) as root, the leftmost port, level and poll flag or their defaults, and every watch and ignore path joined to the root, in order |
| CommandLine.IgnoredArgReachesWatcher | live-server.ts:75-79 | every path given with `--ignore=`, joined to the root, is ignored by the watcher that `start` builds |
| CommandLine.IgnoreDroppedAsWritten | live-server.js:59-61 | as written, live-server.js passes no ignore paths to `start`, so the watcher ignores exactly what the built-in matcher does |
| CommandLine.IgnoreArgClassified | live-server.js:27-31 | `--ignore=a` is read as the one-path ignore list `["a"]` |
| CommandLine.IgnoreDroppedWitness | live-server.js:27-61 | for `live-server --ignore=a` the loop reads the path `a`, the script as written passes no ignore list, and the intended patch passes `[a]`; all other options agree |

## Left out

- HTTP itself is not modelled: connect's middleware chain, serve-index, morgan's output format, the `http` module, and `url.parse`. A request is given as its method and parsed pathnames.
- The MIME table is left out. `mime.getType(p) === "text/html"` is the parameter `isHtml`.
- The `send` library is left out: its root handling, ranges and headers. Its outcome is a function of the path.
- The file system is a map keyed by the exact string handed to `statSync`/`readFileSync`. Path normalisation, symbolic links and UTF-8 decoding are not modelled, and a read failure is an absent text.
- Injector.Inject: `String.replace` interprets `$` patterns in its replacement. The fragment type `Fragment` excludes `$`, so the model covers only fragments without one. The contents of injected.html are not part of this model.
- Chokidar is not modelled: its globbing, file-system events, coalescing and errors. The watcher is its options plus a filter on the events it is handed. Regular-expression matchers are `Predicate` matchers.
- The ws library is not modelled: WebSocket framing, send failures, back-pressure and concurrency. Sends are appended to per-client outboxes, and closing a socket is `Disconnect`.
- SupervisorJs.LiveServer.OnError: the one-second `setTimeout` before the retry is collapsed, so the retry happens at once.
- Console output is not modelled: colours, "Change detected", "Ready for changes", error messages. `process.exit`, the version and usage texts, and the `package.json` lookup are also left out. An exit is `Quit` with its reason.
- `os.networkInterfaces()` is a parameter: a sequence of interfaces in `Object.values` order.
- live-server.ts reads `~/.live-server.json` and merges it into the options. That file and the environment lookup of the home directory are not part of this model.
- live-server.ts passes a `host` option, which index.ts ignores. The model of index.ts takes no host.
- live-server.js calls `index_1.LiveServer.start`, while index.js assigns the object itself to `module.exports`. This module binding is not modelled: the model assumes the call reaches `start`.
- ArgScan.IsIntText: the port test `parseInt(s, 10) === +s` is modelled for an optional sign followed by decimal digits. JavaScript also accepts surrounding whitespace, a fractional part made of zeros (`12.00`), a bare trailing `.` (`12.`), an exponent whose value equals the integer prefix (`1e0`, `80E0`, `0e5`, `12.e0`), a radix-prefixed zero (`0x0`, `0b0`, `0o0`), and any other text that `Number` reads as the same integer; those texts are read here as non-integers. Numbers beyond double precision are unbounded here.
- CommandLine.JoinPath: `path.join` is modelled for parts that need no normalisation. `.`, `..`, repeated and trailing slashes are not collapsed.
- StaticServer.Response.SetHeader: Node's `setHeader` replaces a header of the same name; the model appends. Nothing earlier in the chain sets `Content-Type`, `Cache-Control`, `Accept-Ranges` or `Location`, so the two agree on the handler's responses.
- StaticServer.AfterSend: a `send` error without a `status` (`undefined === 404` is false) goes to `next(err)` in the source; the model gives every error a status.
- ArgScan.Classify: `substring(7)`, `substring(8)` and `substring(9)` count UTF-16 code units, while the model counts characters; they differ when a character outside the Basic Multilingual Plane comes before the option name.
- `options.ignore`/`options.watch` may be `null` as well as `undefined` in JavaScript. The model only has absent (`None`) and present values.
- Handles.LogPolicy: its own contract states only when no logger is installed. What each logger records is stated by `Handles.LogPolicyMeaning`.

## Findings

| source | as written | input that shows it | evidently intended | confidence | as-written member | corrected member |
|---|---|---|---|---|---|---|
| live-server.js:59-61 | the loop stores `--ignore=` paths in the local `ignorePaths`, but the patch tests and assigns `opts.ignore`, which nothing sets, so the paths never reach `start` | `live-server --ignore=a` | `opts.ignore` becomes the `ignorePaths` joined to the root, as live-server.ts:75-79 does | high, by reading the code; not executed | CommandLine.PatchedAsWritten (with CommandLine.IgnoreDroppedWitness and CommandLine.IgnoreDroppedAsWritten) | CommandLine.Patched (with CommandLine.IgnoredArgReachesWatcher and CommandLine.ParseCommandLine) |
