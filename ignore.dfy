/** The watcher's ignore chain: a built-in matcher for dotfiles and editor temporaries, always
    first, followed by the caller's matchers in their given order. */
module WatchIgnore {
  import opened Wrappers
  import opened Text

  /** The path with its trailing slashes removed. */
  function TrimTrailingSlashes(p: string): (r: string)
    ensures |r| == 0 || r[|r| - 1] != '/'
    ensures |r| <= |p| && r == p[..|r|]
  {
    if |p| > 0 && p[|p| - 1] == '/' then TrimTrailingSlashes(p[..|p| - 1]) else p
  }

  /** A POSIX stand-in for `path.basename`: the last segment, ignoring trailing slashes. */
  function Basename(p: string): string {
    AfterLast(TrimTrailingSlashes(p), '/')
  }

  predicate EndsWith(s: string, suffix: string) {
    |suffix| <= |s| && s[|s| - |suffix|..] == suffix
  }

  /** `/(^[.#]|(?:__|~)$)/.test(name)`. */
  predicate HiddenOrTemporaryName(name: string) {
    (|name| > 0 && (name[0] == '.' || name[0] == '#')) || EndsWith(name, "__") || EndsWith(name, "~")
  }

  /** The built-in matcher, `testPath !== "." && /(^[.#]|(?:__|~)$)/.test(path.basename(testPath))`. */
  predicate DefaultIgnored(p: string) {
    p != "." && HiddenOrTemporaryName(Basename(p))
  }

  /** The basename of `dir/name` is `name`, for any directory part. */
  lemma BasenameOfChild(dir: string, name: string)
    requires name != "" && '/' !in name
    ensures Basename(dir + "/" + name) == name
  {
    var p := dir + "/" + name;
    assert p[|p| - 1] == name[|name| - 1];
    assert name[|name| - 1] in name;
    assert TrimTrailingSlashes(p) == p;
    assert p == dir + ['/'] + name;
    AfterLastAppend(dir, '/', name);
  }

  /** A top-level entry, reported without a directory part, is judged by its name too; only `.`
      itself is never ignored. */
  lemma TopLevelIgnoredByName(name: string)
    requires name != "" && name != "." && '/' !in name
    ensures Basename(name) == name
    ensures DefaultIgnored(name) <==> HiddenOrTemporaryName(name)
  {
    assert name[|name| - 1] in name;
    assert TrimTrailingSlashes(name) == name;
    AfterLastAbsent(name, '/');
  }

  /** Inside any directory, an entry is ignored exactly when its own name is hidden or temporary:
      `.git`, `#notes#`, `file~` and `module__` are, `index.html` is not. */
  lemma ChildIgnoredByName(dir: string, name: string)
    requires name != "" && '/' !in name
    ensures DefaultIgnored(dir + "/" + name) <==> HiddenOrTemporaryName(name)
  {
    BasenameOfChild(dir, name);
    assert (dir + "/" + name)[|dir|] == '/';
  }

  /** One entry of chokidar's `ignored` option. A string matches its own path exactly; a
      function (or a regular expression's `test`) is applied to the path. */
  datatype Matcher = DefaultDotfiles | Literal(path: string) | Predicate(test: string -> bool)

  predicate Matches(m: Matcher, p: string) {
    match m
    case DefaultDotfiles => DefaultIgnored(p)
    case Literal(s) => s == p
    case Predicate(f) => f(p)
  }

  /** A path is ignored when any matcher of the chain matches it. */
  predicate AnyMatches(chain: seq<Matcher>, p: string)
    decreases |chain|
  {
    |chain| > 0 && (Matches(chain[0], p) || AnyMatches(chain[1..], p))
  }

  lemma {:induction false} AnyMatchesIndex(chain: seq<Matcher>, p: string)
    ensures AnyMatches(chain, p) <==> exists i :: 0 <= i < |chain| && Matches(chain[i], p)
    decreases |chain|
  {
    if |chain| > 0 {
      AnyMatchesIndex(chain[1..], p);
      if exists i :: 0 <= i < |chain| && Matches(chain[i], p) {
        var i :| 0 <= i < |chain| && Matches(chain[i], p);
        if i > 0 {
          assert Matches(chain[1..][i - 1], p);
        }
      }
      if exists i :: 0 <= i < |chain[1..]| && Matches(chain[1..][i], p) {
        var i :| 0 <= i < |chain[1..]| && Matches(chain[1..][i], p);
        assert Matches(chain[i + 1], p);
      }
    }
  }

  /** `[default].concat(options.ignore)` when ignore matchers are given, `[default]` otherwise. */
  function IgnoreChain(user: Option<seq<Matcher>>): seq<Matcher> {
    [DefaultDotfiles] + user.GetOr([])
  }

  /** The chain starts with the built-in matcher, keeps the caller's matchers in order, and ignores
      a path exactly when the built-in matcher or one of the caller's matchers does. */
  lemma IgnoreChainMeaning(user: Option<seq<Matcher>>, p: string)
    ensures var chain := IgnoreChain(user);
            && chain[0].DefaultDotfiles?
            && chain[1..] == user.GetOr([])
            && (AnyMatches(chain, p) <==>
                  DefaultIgnored(p) || exists i :: 0 <= i < |user.GetOr([])| && Matches(user.GetOr([])[i], p))
  {
    var chain := IgnoreChain(user);
    assert chain[1..] == user.GetOr([]);
    AnyMatchesIndex(user.GetOr([]), p);
  }
}
