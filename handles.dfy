/** What both revisions of the supervisor share: the options `start` receives, the request-log
    policy, the watcher events, and the server and watcher handles it opens and closes. */
module Handles {
  import opened Wrappers
  import opened WatchIgnore

  /** `LiveServerOptions`; an absent field is `undefined`. */
  datatype Options = Options(
    port: Option<int>,
    logLevel: Option<int>,
    poll: Option<bool>,
    root: Option<string>,
    watch: Option<seq<string>>,
    ignore: Option<seq<Matcher>>)

  /** `options.root || process.cwd()`: an empty root counts as none. */
  function RootOrCwd(root: Option<string>, cwd: string): (r: string)
    ensures root.Some? && root.value != "" ==> r == root.value
    ensures root.None? || root.value == "" ==> r == cwd
  {
    if root.Some? && root.value != "" then root.value else cwd
  }

  /** Which request logger `start` installs. */
  datatype RequestLog = NoLogger | ErrorsOnly | AllRequests

  function Logged(policy: RequestLog, status: int): bool {
    match policy
    case NoLogger => false
    case ErrorsOnly => status >= 400
    case AllRequests => true
  }

  /** The logger `start` installs for a log level. */
  function LogPolicy(level: int): (r: RequestLog)
    ensures r == NoLogger <==> level < 2
  {
    if level == 2 then ErrorsOnly else if level > 2 then AllRequests else NoLogger
  }

  /** Level 2 logs the requests that end with a status of 400 or more, a level above 2 logs every
      request, and any other level installs no logger. */
  lemma LogPolicyMeaning(level: int, status: int)
    ensures Logged(LogPolicy(level), status) <==> (level == 2 && status >= 400) || level > 2
  {
  }

  /** The events chokidar emits. */
  datatype WatchEvent =
    | Change(path: string) | Add(path: string) | Unlink(path: string)
    | AddDir(path: string) | UnlinkDir(path: string)
    | Ready | WatchError(message: string)

  /** The five events wired to `handleChange`. */
  predicate IsChange(e: WatchEvent) {
    e.Change? || e.Add? || e.Unlink? || e.AddDir? || e.UnlinkDir?
  }

  /** A `server.listen(port, host)` call; index.ts passes no host. */
  datatype ListenCall = ListenCall(port: int, host: Option<string>)

  /** The `http.Server` created by `start`. */
  class HttpServer {
    var listenCalls: seq<ListenCall>
    var closed: bool

    constructor ()
      ensures listenCalls == [] && !closed
    {
      listenCalls, closed := [], false;
    }

    method Listen(port: int, host: Option<string>)
      modifies this
      ensures listenCalls == old(listenCalls) + [ListenCall(port, host)] && closed == old(closed)
    {
      listenCalls := listenCalls + [ListenCall(port, host)];
    }

    method Close()
      modifies this
      ensures closed && listenCalls == old(listenCalls)
    {
      closed := true;
    }
  }

  /** The `chokidar.FSWatcher` created by `start`, with the options it was given. */
  class FsWatcher {
    const paths: seq<string>
    const usePolling: bool
    const ignored: seq<Matcher>
    const ignoreInitial: bool
    var closed: bool

    constructor (paths: seq<string>, usePolling: bool, ignored: seq<Matcher>, ignoreInitial: bool)
      ensures this.paths == paths && this.usePolling == usePolling && this.ignored == ignored
      ensures this.ignoreInitial == ignoreInitial && !closed
    {
      this.paths, this.usePolling, this.ignored, this.ignoreInitial := paths, usePolling, ignored, ignoreInitial;
      closed := false;
    }

    /** An open watcher passes on every event except those about a path its `ignored` chain matches. */
    predicate Emits(e: WatchEvent)
      reads this
    {
      !closed && (IsChange(e) ==> !AnyMatches(ignored, e.path))
    }

    method Close()
      modifies this
      ensures closed
    {
      closed := true;
    }
  }

  /** A watcher configured with the built-in matcher first never passes on a change to a hidden
      or temporary entry such as `.git` or `notes.txt~`, whatever the caller's matchers are, both
      inside a directory and at the top level of a watched `.`. */
  lemma HiddenEntriesNeverEmitted(user: Option<seq<Matcher>>, dir: string, name: string, e: WatchEvent)
    requires name != "" && '/' !in name && HiddenOrTemporaryName(name)
    requires IsChange(e) && (e.path == dir + "/" + name || (e.path == name && name != "."))
    ensures AnyMatches(IgnoreChain(user), e.path)
  {
    if e.path != dir + "/" + name {
      TopLevelIgnoredByName(name);
    } else {
      ChildIgnoredByName(dir, name);
    }
    IgnoreChainMeaning(user, e.path);
  }

  /** What the `listening` handler prints, if anything. */
  datatype Announcement =
    | Silent
    | AddressMissing
    | ServingOnPort(root: string, port: nat)
    | ServingAt(root: string, url: string)
    | ServingAtList(root: string, urls: seq<string>)
    | ServingAtBoth(root: string, openUrl: string, serveUrl: string)
}
