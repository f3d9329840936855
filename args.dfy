/** The command-line scan shared by live-server.ts and live-server.js: `process.argv` is read from
    its last element down to index 2, recognised options are spliced out, and the leftmost
    occurrence of an option wins because it is read last. */
module ArgScan {
  import opened Wrappers
  import opened Text

  /** The text after `--port=` is a JavaScript integer literal: an optional sign and digits. */
  predicate IsIntText(t: string) {
    if |t| > 0 && (t[0] == '-' || t[0] == '+') then |t| > 1 && AllDigits(t[1..])
    else |t| > 0 && AllDigits(t)
  }

  function IntValue(t: string): int
    requires IsIntText(t)
  {
    if t[0] == '-' then -(DecimalValue(t[1..]) as int)
    else if t[0] == '+' then DecimalValue(t[1..])
    else DecimalValue(t)
  }

  /** How JavaScript prints an integer. */
  function IntText(z: int): string {
    if z < 0 then "-" + NatToDecimal(-z) else NatToDecimal(z)
  }

  /** Every printed integer is accepted as a port text and reads back as itself. */
  lemma IntTextRoundTrip(z: int)
    ensures IsIntText(IntText(z)) && IntValue(IntText(z)) == z
  {
    var t := IntText(z);
    if z < 0 {
      assert t[1..] == NatToDecimal(-z);
      DecimalRoundTrip(-z);
    } else {
      DecimalRoundTrip(z);
    }
  }

  /** What one element of `process.argv` asks for. */
  datatype ArgKind =
    | PortArg(port: int)
    | WatchArg(watch: seq<string>)
    | IgnoreArg(ignore: seq<string>)
    | Quiet
    | Verbose
    | Version
    | Poll
    | Help
    | Kept

  /** The `if`/`else if` chain of the loop. The three `--x=` options are found anywhere in the
      argument, but their value is always taken after the first 7, 8 or 9 characters; a port that
      is not an integer leaves the argument in place and tries no other option. */
  function Classify(arg: string): ArgKind {
    if Contains(arg, "--port=") then
      ContainsLength(arg, "--port=");
      var portString := arg[7..];
      if IsIntText(portString) then PortArg(IntValue(portString)) else Kept
    else if Contains(arg, "--watch=") then
      ContainsLength(arg, "--watch=");
      WatchArg(Split(arg[8..], ','))
    else if Contains(arg, "--ignore=") then
      ContainsLength(arg, "--ignore=");
      IgnoreArg(Split(arg[9..], ','))
    else if arg == "--quiet" || arg == "-q" then Quiet
    else if arg == "--verbose" || arg == "-V" then Verbose
    else if arg == "--version" || arg == "-v" then Version
    else if arg == "--poll" then Poll
    else if arg == "--help" || arg == "-h" then Help
    else Kept
  }

  /** The arguments that end the process (after printing the version or the usage). */
  predicate Exits(k: ArgKind) {
    k.Version? || k.Help?
  }

  /** The option values the loop writes; `Defaults` are those the script starts from. */
  datatype Flags = Flags(
    port: int,
    watch: Option<seq<string>>,
    ignore: Option<seq<string>>,
    logLevel: int,
    poll: bool)

  const Defaults: Flags := Flags(8080, None, None, 2, false)

  /** The assignment one recognised argument makes. */
  function Apply(f: Flags, k: ArgKind): Flags {
    match k
    case PortArg(p) => f.(port := p)
    case WatchArg(w) => f.(watch := Some(w))
    case IgnoreArg(i) => f.(ignore := Some(i))
    case Quiet => f.(logLevel := 0)
    case Verbose => f.(logLevel := 3)
    case Poll => f.(poll := true)
    case _ => f
  }

  datatype ExitReason = ShowVersion | ShowHelp

  /** The loop either ends the process or leaves the flags and the spliced `process.argv`. */
  datatype ScanResult = Exited(reason: ExitReason) | Scanned(flags: Flags, argv: seq<string>)

  /** The loop over `args` from its last element to its first, starting from the flags `f`, with
      `kept` the arguments already read and left in place. */
  function ScanFrom(args: seq<string>, f: Flags, kept: seq<string>): ScanResult
    decreases |args|
  {
    if |args| == 0 then Scanned(f, kept)
    else
      var arg := args[|args| - 1];
      var init := args[..|args| - 1];
      match Classify(arg)
      case Version => Exited(ShowVersion)
      case Help => Exited(ShowHelp)
      case Kept => ScanFrom(init, f, [arg] + kept)
      case k => ScanFrom(init, Apply(f, k), kept)
  }

  /** The whole loop over `process.argv`; the node binary and the script path are never read. */
  function Scan(argv: seq<string>): ScanResult {
    if |argv| < 2 then Scanned(Defaults, argv)
    else
      match ScanFrom(argv[2..], Defaults, [])
      case Exited(reason) => Exited(reason)
      case Scanned(f, kept) => Scanned(f, argv[..2] + kept)
  }

  /** The loop as written: walks `i` down from the last index to 2 and splices recognised
      arguments out of its own copy of `argv`. */
  method ScanArgv(argv0: seq<string>) returns (r: ScanResult)
    ensures r == Scan(argv0)
  {
    var argv := argv0;
    var flags := Defaults;
    var i := |argv| - 1;
    assert argv[i + 1..] == [];
    if |argv0| >= 2 {
      assert argv0[2..] == argv0[2..i + 1];
    }
    while i >= 2
      invariant -1 <= i < |argv| <= |argv0|
      invariant argv[..i + 1] == argv0[..i + 1]
      invariant |argv0| < 2 ==> argv == argv0 && flags == Defaults
      invariant |argv0| >= 2 ==>
        i >= 1 && ScanFrom(argv0[2..], Defaults, []) == ScanFrom(argv0[2..i + 1], flags, argv[i + 1..])
    {
      var arg := argv[i];
      assert arg == argv0[i] by {
        assert argv[..i + 1][i] == argv0[..i + 1][i];
      }
      assert argv0[2..i + 1][..i - 2] == argv0[2..i];
      var k := Classify(arg);
      if k.Version? {
        return Exited(ShowVersion);
      } else if k.Help? {
        return Exited(ShowHelp);
      } else if k.Kept? {
        assert argv[i..] == [arg] + argv[i + 1..];
      } else {
        flags := Apply(flags, k);
        var rest := argv[i + 1..];
        argv := argv[..i] + rest;
        assert argv[i..] == rest;
      }
      i := i - 1;
    }
    if |argv0| >= 2 {
      assert argv == argv[..2] + argv[2..];
      assert argv0[2..2] == [];
    }
    r := Scanned(flags, argv);
  }

  /** The arguments left in place, in order. */
  function KeptArgs(args: seq<string>): seq<string> {
    if |args| == 0 then []
    else KeptArgs(args[..|args| - 1]) + (if Classify(args[|args| - 1]).Kept? then [args[|args| - 1]] else [])
  }

  /** The value the leftmost argument that sets an option gives it, with `sel` picking the option. */
  function First<T>(args: seq<string>, sel: ArgKind -> Option<T>): Option<T> {
    if |args| == 0 then None
    else if sel(Classify(args[0])).Some? then sel(Classify(args[0]))
    else First(args[1..], sel)
  }

  function PortOf(k: ArgKind): Option<int> {
    if k.PortArg? then Some(k.port) else None
  }

  function WatchOf(k: ArgKind): Option<seq<string>> {
    if k.WatchArg? then Some(k.watch) else None
  }

  function IgnoreOf(k: ArgKind): Option<seq<string>> {
    if k.IgnoreArg? then Some(k.ignore) else None
  }

  function LevelOf(k: ArgKind): Option<int> {
    if k.Quiet? then Some(0) else if k.Verbose? then Some(3) else None
  }

  function PollOf(k: ArgKind): Option<bool> {
    if k.Poll? then Some(true) else None
  }

  /** `o` when it is set, otherwise `d`. */
  function OrElse<T>(o: Option<T>, d: Option<T>): Option<T> {
    if o.Some? then o else d
  }

  lemma {:induction false} FirstAppend<T>(init: seq<string>, arg: string, sel: ArgKind -> Option<T>)
    ensures First(init + [arg], sel) == OrElse(First(init, sel), sel(Classify(arg)))
    decreases |init|
  {
    if |init| > 0 {
      assert (init + [arg])[1..] == init[1..] + [arg];
      FirstAppend(init[1..], arg, sel);
    } else {
      assert (init + [arg])[1..] == [];
    }
  }

  /** Over any stretch of arguments the loop exits exactly when one of them asks for the version
      or the usage. */
  lemma {:induction false} ScanFromExits(args: seq<string>, f: Flags, kept: seq<string>)
    ensures ScanFrom(args, f, kept).Exited? <==> HasExit(args)
    decreases |args|
  {
    if |args| > 0 {
      var n := |args| - 1;
      var arg, init := args[n], args[..n];
      var k := Classify(arg);
      AnyArgSnoc(args, IsExitArg);
      if k.Kept? {
        assert ScanFrom(args, f, kept) == ScanFrom(init, f, [arg] + kept);
        ScanFromExits(init, f, [arg] + kept);
      } else if !Exits(k) {
        assert ScanFrom(args, f, kept) == ScanFrom(init, Apply(f, k), kept);
        ScanFromExits(init, Apply(f, k), kept);
      }
    }
  }

  /** The argument asks for the version or the usage. */
  predicate IsExitArg(arg: string) {
    Exits(Classify(arg))
  }

  /** Some argument satisfies `p`. */
  predicate AnyArg(args: seq<string>, p: string -> bool) {
    exists j :: 0 <= j < |args| && p(args[j])
  }

  predicate HasExit(args: seq<string>) {
    AnyArg(args, IsExitArg)
  }

  lemma AnyArgSnoc(args: seq<string>, p: string -> bool)
    requires |args| > 0
    ensures AnyArg(args, p) <==> AnyArg(args[..|args| - 1], p) || p(args[|args| - 1])
  {
    var n := |args| - 1;
    var init := args[..n];
    if AnyArg(init, p) {
      var j :| 0 <= j < |init| && p(init[j]);
      assert args[j] == init[j];
    }
    if AnyArg(args, p) {
      var j :| 0 <= j < |args| && p(args[j]);
      if j < n {
        assert init[j] == args[j];
      }
    }
  }

  /** When it does not exit, the loop leaves exactly the unrecognised arguments, in order, in
      front of those already kept. */
  lemma {:induction false} ScanFromKeeps(args: seq<string>, f: Flags, kept: seq<string>)
    ensures ScanFrom(args, f, kept).Scanned? ==> ScanFrom(args, f, kept).argv == KeptArgs(args) + kept
    decreases |args|
  {
    if |args| > 0 {
      var n := |args| - 1;
      var arg, init := args[n], args[..n];
      var k := Classify(arg);
      if k.Kept? {
        assert ScanFrom(args, f, kept) == ScanFrom(init, f, [arg] + kept);
        ScanFromKeeps(init, f, [arg] + kept);
        assert KeptArgs(init) + ([arg] + kept) == (KeptArgs(init) + [arg]) + kept;
      } else if !Exits(k) {
        assert ScanFrom(args, f, kept) == ScanFrom(init, Apply(f, k), kept);
        ScanFromKeeps(init, Apply(f, k), kept);
        assert KeptArgs(args) == KeptArgs(init) + [];
      }
    }
  }

  /** When it does not exit, each option ends with the value of its leftmost occurrence, or keeps
      the one it had. */
  lemma {:induction false} ScanFromFlags(args: seq<string>, f: Flags, kept: seq<string>)
    ensures ScanFrom(args, f, kept).Scanned? ==>
      var g := ScanFrom(args, f, kept).flags;
      && g.port == First(args, PortOf).GetOr(f.port)
      && g.watch == OrElse(First(args, WatchOf), f.watch)
      && g.ignore == OrElse(First(args, IgnoreOf), f.ignore)
      && g.logLevel == First(args, LevelOf).GetOr(f.logLevel)
      && g.poll == First(args, PollOf).GetOr(f.poll)
    decreases |args|
  {
    if |args| > 0 {
      var n := |args| - 1;
      var arg, init := args[n], args[..n];
      assert args == init + [arg];
      FirstAppend(init, arg, PortOf);
      FirstAppend(init, arg, WatchOf);
      FirstAppend(init, arg, IgnoreOf);
      FirstAppend(init, arg, LevelOf);
      FirstAppend(init, arg, PollOf);
      var k := Classify(arg);
      if k.Kept? {
        assert ScanFrom(args, f, kept) == ScanFrom(init, f, [arg] + kept);
        ScanFromFlags(init, f, [arg] + kept);
      } else if !Exits(k) {
        assert ScanFrom(args, f, kept) == ScanFrom(init, Apply(f, k), kept);
        ScanFromFlags(init, Apply(f, k), kept);
      }
    }
  }

  /** The loop over `process.argv`: the process exits exactly when an argument from index 2 on
      asks for the version or the usage; otherwise `process.argv` keeps its first two elements and
      the unrecognised arguments, and the leftmost occurrence of each option decides its value. */
  lemma ScanMeaning(argv: seq<string>)
    requires |argv| >= 2
    ensures Scan(argv).Exited? <==> exists j :: 2 <= j < |argv| && IsExitArg(argv[j])
    ensures Scan(argv).Scanned? ==>
      var args, g := argv[2..], Scan(argv).flags;
      && Scan(argv).argv == argv[..2] + KeptArgs(args)
      && g.port == First(args, PortOf).GetOr(8080)
      && g.watch == First(args, WatchOf)
      && g.ignore == First(args, IgnoreOf)
      && g.logLevel == First(args, LevelOf).GetOr(2)
      && g.poll == First(args, PollOf).GetOr(false)
  {
    var args := argv[2..];
    ScanFromExits(args, Defaults, []);
    ScanFromKeeps(args, Defaults, []);
    ScanFromFlags(args, Defaults, []);
    assert KeptArgs(args) + [] == KeptArgs(args);
    if exists j :: 2 <= j < |argv| && IsExitArg(argv[j]) {
      var j :| 2 <= j < |argv| && IsExitArg(argv[j]);
      assert args[j - 2] == argv[j];
    }
    if HasExit(args) {
      var j :| 0 <= j < |args| && IsExitArg(args[j]);
      assert argv[j + 2] == args[j];
    }
  }

  /** `--port=` followed by any printed integer sets the port to that integer. */
  lemma PortArgRoundTrip(z: int)
    ensures Classify("--port=" + IntText(z)) == PortArg(z)
  {
    var arg := "--port=" + IntText(z);
    assert arg[0..7] == "--port=";
    assert arg[7..] == IntText(z);
    IntTextRoundTrip(z);
  }

  /** `--watch=` and `--ignore=` split their value at every comma: joining the pieces back gives
      the value, and no piece holds a comma. An earlier option name inside the value wins. */
  lemma ListArgPieces(s: string)
    ensures !Contains("--watch=" + s, "--port=") ==>
      && Classify("--watch=" + s).WatchArg?
      && JoinWith(Classify("--watch=" + s).watch, ',') == s
      && forall i :: 0 <= i < |Classify("--watch=" + s).watch| ==> ',' !in Classify("--watch=" + s).watch[i]
    ensures !Contains("--ignore=" + s, "--port=") && !Contains("--ignore=" + s, "--watch=") ==>
      && Classify("--ignore=" + s).IgnoreArg?
      && JoinWith(Classify("--ignore=" + s).ignore, ',') == s
      && forall i :: 0 <= i < |Classify("--ignore=" + s).ignore| ==> ',' !in Classify("--ignore=" + s).ignore[i]
  {
    var w, g := "--watch=" + s, "--ignore=" + s;
    assert w[0..8] == "--watch=" && w[8..] == s;
    assert g[0..9] == "--ignore=" && g[9..] == s;
    SplitJoin(s, ',');
  }
}
