/** The command-line entry points live-server.ts and live-server.js: scan `process.argv`, then
    patch the paths against the root argument and hand the options to `start`. */
module CommandLine {
  import opened Wrappers
  import opened Text
  import opened WatchIgnore
  import opened Handles
  import opened ArgScan

  /** `path.join(dir, p)` on POSIX for paths that need no normalisation: empty parts are dropped,
      the rest joined by `/`, and nothing at all gives `.`. */
  function JoinPath(dir: string, p: string): (r: string)
    ensures |r| > 0
  {
    if dir == "" && p == "" then "."
    else if dir == "" then p
    else if p == "" then dir
    else dir + "/" + p
  }

  /** A name joined under a directory is that directory's child: its basename is the name, so the
      watcher's built-in matcher judges it by the name alone. */
  lemma JoinedChild(dir: string, name: string)
    requires dir != "" && name != "" && '/' !in name
    ensures JoinPath(dir, name) == dir + "/" + name
    ensures Basename(JoinPath(dir, name)) == name
    ensures DefaultIgnored(JoinPath(dir, name)) <==> HiddenOrTemporaryName(name)
  {
    BasenameOfChild(dir, name);
    ChildIgnoredByName(dir, name);
  }

  /** `relativePaths.map(p => path.join(dir, p))`. */
  function JoinAll(dir: string, paths: seq<string>): seq<string> {
    seq(|paths|, i requires 0 <= i < |paths| => JoinPath(dir, paths[i]))
  }

  /** The ignore paths as chokidar matchers: each string matches its own path. */
  function Literals(paths: seq<string>): seq<Matcher> {
    seq(|paths|, i requires 0 <= i < |paths| => Literal(paths[i]))
  }

  /** What the script ends with: the process exits, or `start` is called with these options. */
  datatype CliOutcome = Quit(reason: ExitReason) | StartWith(options: Options)

  /** `process.argv[2] || ""` once the loop has spliced out the recognised options. */
  function RootArg(argv: seq<string>): string {
    if |argv| > 2 then argv[2] else ""
  }

  /** The patch step as intended by both scripts: the root is the first argument left in place,
      and the watch and ignore paths are joined to it. */
  function Patched(r: ScanResult): CliOutcome {
    match r
    case Exited(reason) => Quit(reason)
    case Scanned(f, argv) =>
      var dir := RootArg(argv);
      StartWith(Options(
        Some(f.port), Some(f.logLevel), Some(f.poll), Some(dir),
        if f.watch.Some? then Some(JoinAll(dir, f.watch.value)) else None,
        if f.ignore.Some? then Some(Literals(JoinAll(dir, f.ignore.value))) else None))
  }

  /** The patch step of live-server.js as written: the ignore paths go to a local variable but the
      test and the assignment are on `opts.ignore`, which nothing sets, so they never reach `start`. */
  function PatchedAsWritten(r: ScanResult): CliOutcome {
    match r
    case Exited(reason) => Quit(reason)
    case Scanned(f, argv) =>
      var dir := RootArg(argv);
      StartWith(Options(
        Some(f.port), Some(f.logLevel), Some(f.poll), Some(dir),
        if f.watch.Some? then Some(JoinAll(dir, f.watch.value)) else None,
        None))
  }

  /** The whole script up to the call of `start`. */
  method ParseCommandLine(argv: seq<string>) returns (out: CliOutcome)
    ensures out == Patched(Scan(argv))
  {
    var r := ScanArgv(argv);
    if r.Exited? {
      return Quit(r.reason);
    }
    var f := r.flags;
    var dir := if |r.argv| > 2 then r.argv[2] else "";
    var watch := f.watch;
    if watch.Some? {
      watch := Some(JoinAll(dir, watch.value));
    }
    var ignore: Option<seq<Matcher>> := None;
    if f.ignore.Some? {
      ignore := Some(Literals(JoinAll(dir, f.ignore.value)));
    }
    out := StartWith(Options(Some(f.port), Some(f.logLevel), Some(f.poll), Some(dir), watch, ignore));
  }

  /** The script exits exactly when an argument asks for the version or the usage. Otherwise
      `start` gets the leftmost port (8080 by default), log level (2) and poll flag (false), the
      first argument that is not an option as its root (or the empty string), and the leftmost
      watch and ignore lists with every path joined to that root. */
  lemma CommandLineMeaning(argv: seq<string>)
    requires |argv| >= 2
    ensures Patched(Scan(argv)).Quit? <==> exists j :: 2 <= j < |argv| && IsExitArg(argv[j])
    ensures Patched(Scan(argv)).StartWith? ==>
      var args, o := argv[2..], Patched(Scan(argv)).options;
      var root := if |KeptArgs(args)| > 0 then KeptArgs(args)[0] else "";
      && o.root == Some(root)
      && o.port == Some(First(args, PortOf).GetOr(8080))
      && o.logLevel == Some(First(args, LevelOf).GetOr(2))
      && o.poll == Some(First(args, PollOf).GetOr(false))
      && (First(args, WatchOf).None? ==> o.watch.None?)
      && (First(args, WatchOf).Some? ==>
            o.watch.Some? && |o.watch.value| == |First(args, WatchOf).value|
            && forall i :: 0 <= i < |o.watch.value| ==>
                 o.watch.value[i] == JoinPath(root, First(args, WatchOf).value[i]))
      && (First(args, IgnoreOf).None? ==> o.ignore.None?)
      && (First(args, IgnoreOf).Some? ==>
            o.ignore.Some? && |o.ignore.value| == |First(args, IgnoreOf).value|
            && forall i :: 0 <= i < |o.ignore.value| ==>
                 o.ignore.value[i] == Literal(JoinPath(root, First(args, IgnoreOf).value[i])))
  {
    ScanMeaning(argv);
    if Scan(argv).Scanned? {
      var kept := Scan(argv).argv;
      assert kept == argv[..2] + KeptArgs(argv[2..]);
      if |KeptArgs(argv[2..])| > 0 {
        assert kept[2] == KeptArgs(argv[2..])[0];
      }
    }
  }

  /** Every path given with `--ignore=` reaches the watcher: joined to the root, it is ignored. */
  lemma IgnoredArgReachesWatcher(argv: seq<string>, i: nat)
    requires |argv| >= 2 && Patched(Scan(argv)).StartWith?
    requires First(argv[2..], IgnoreOf).Some? && i < |First(argv[2..], IgnoreOf).value|
    ensures var o := Patched(Scan(argv)).options;
            AnyMatches(IgnoreChain(o.ignore), JoinPath(o.root.value, First(argv[2..], IgnoreOf).value[i]))
  {
    CommandLineMeaning(argv);
    var o := Patched(Scan(argv)).options;
    var p := JoinPath(o.root.value, First(argv[2..], IgnoreOf).value[i]);
    IgnoreChainMeaning(o.ignore, p);
    assert Matches(o.ignore.value[i], p);
  }

  /** As written, live-server.js never passes ignore paths to `start`, whatever the arguments, so
      the watcher ignores only what the built-in matcher does. */
  lemma IgnoreDroppedAsWritten(argv: seq<string>, p: string)
    requires PatchedAsWritten(Scan(argv)).StartWith?
    ensures PatchedAsWritten(Scan(argv)).options.ignore.None?
    ensures AnyMatches(IgnoreChain(PatchedAsWritten(Scan(argv)).options.ignore), p) <==> DefaultIgnored(p)
  {
    IgnoreChainMeaning(PatchedAsWritten(Scan(argv)).options.ignore, p);
  }

  /** `--ignore=a` names neither a port nor a watch list, and reads as the one-path ignore list. */
  lemma IgnoreArgClassified()
    ensures Classify("--ignore=a") == IgnoreArg(["a"])
  {
    var arg := "--ignore=a";
    MissingCharNotContained(arg, "--port=", 'p', 0);
    MissingCharNotContained(arg, "--watch=", 'w', 0);
    assert arg[0..9] == "--ignore=";
    assert arg[9..] == "a";
    assert Split("a", ',') == ["a"] by {
      OccursAtChar("a", ',', 0);
    }
  }

  /** `live-server --ignore=a`: the loop reads the path, the script as written drops it, the
      intended patch passes it on; everything else agrees. */
  lemma IgnoreDroppedWitness()
    ensures var argv := ["node", "live-server", "--ignore=a"];
      && Scan(argv).Scanned? && Scan(argv).flags.ignore == Some(["a"])
      && PatchedAsWritten(Scan(argv)).options.ignore == None
      && Patched(Scan(argv)).options.ignore == Some([Literal("a")])
      && PatchedAsWritten(Scan(argv)).options == Patched(Scan(argv)).options.(ignore := None)
  {
    var argv := ["node", "live-server", "--ignore=a"];
    IgnoreArgClassified();
    assert argv[2..] == ["--ignore=a"];
    assert argv[2..][..0] == [];
    assert Scan(argv).argv == argv[..2];
    assert JoinAll("", ["a"]) == ["a"];
    assert Literals(["a"]) == [Literal("a")];
  }
}
