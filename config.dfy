/**
 * The decisions fzfcache takes from its environment and its arguments:
 * where the cache lives, which shell runs the command, and whether the
 * arguments name a command at all. Environment variables are passed in;
 * an unset variable reads as the empty string.
 */
module Config {

  /** The environment variables fzfcache consults. */
  datatype Env = Env(fzfcacheDir: string, xdgCacheHome: string, home: string, shell: string)

  /** Joins two path elements with a slash; an empty element is dropped. */
  function PathJoin(dir: string, name: string): (p: string)
    ensures dir != "" && name != "" ==> |p| == |dir| + 1 + |name| && p[|dir|] == '/'
    ensures dir == "" || name == "" ==> |p| == |dir| + |name|
    ensures dir <= p && p[|p| - |name|..] == name
  {
    if dir == "" then name else if name == "" then dir else dir + "/" + name
  }

  /**
   * The cache directory: FZFCACHE_DIR when it is set, else
   * XDG_CACHE_HOME/fzfcache, else HOME/.cache/fzfcache.
   */
  function CacheDir(env: Env): (dir: string)
    ensures dir != ""
    ensures env.fzfcacheDir != "" ==> dir == env.fzfcacheDir
    ensures env.fzfcacheDir == "" && env.xdgCacheHome != "" ==>
      dir == env.xdgCacheHome + "/fzfcache"
    ensures env.fzfcacheDir == "" && env.xdgCacheHome == "" ==>
      dir == (if env.home == "" then ".cache" else env.home + "/.cache") + "/fzfcache"
  {
    if env.fzfcacheDir != "" then env.fzfcacheDir
    else
      var base := if env.xdgCacheHome != "" then env.xdgCacheHome else PathJoin(env.home, ".cache");
      PathJoin(base, "fzfcache")
  }

  /** A variable consulted later in the precedence order never overrides an earlier one. */
  lemma CacheDirPrecedence(env: Env, xdg: string, home: string)
    ensures env.fzfcacheDir != "" ==>
      CacheDir(env.(xdgCacheHome := xdg, home := home)) == CacheDir(env)
    ensures env.xdgCacheHome != "" ==> CacheDir(env.(home := home)) == CacheDir(env)
  {
  }

  /** The shell that runs the command: SHELL, or "sh" when SHELL is empty. */
  function DefaultShell(shell: string): (r: string)
    ensures r != ""
    ensures shell != "" ==> r == shell
    ensures shell == "" ==> r == "sh"
  {
    if |shell| == 0 then "sh" else shell
  }

  /** The three spellings of the help flag. */
  predicate IsHelpFlag(arg: string)
  {
    arg == "-h" || arg == "-help" || arg == "--help"
  }

  /** What the arguments ask for: stop with an exit code after usage, or run a command. */
  datatype Flags = Exit(code: int) | Command(words: seq<string>)

  /**
   * No arguments stop with usage and exit code 1; a help flag as the only
   * argument stops with usage and exit code 0; anything else is the command.
   */
  function ParseFlags(args: seq<string>): (f: Flags)
    ensures f == Exit(1) <==> args == []
    ensures f == Exit(0) <==> |args| == 1 && IsHelpFlag(args[0])
    ensures f.Exit? ==> f.code == 0 || f.code == 1
    ensures f.Command? ==> f.words == args
  {
    if |args| == 0 then Exit(1)
    else if |args| == 1 && IsHelpFlag(args[0]) then Exit(0)
    else Command(args)
  }

  /** The command text: the words joined with single spaces. */
  function JoinArgs(words: seq<string>): (s: string)
    ensures |words| == 1 ==> s == words[0]
  {
    if |words| == 0 then ""
    else if |words| == 1 then words[0]
    else words[0] + " " + JoinArgs(words[1..])
  }

  /** Cuts a string at every space; the reference that JoinArgs is inverted against. */
  function SplitOnSpace(s: string): (parts: seq<string>)
    ensures |parts| >= 1
    ensures forall k :: 0 <= k < |parts| ==> ' ' !in parts[k]
    decreases |s|
  {
    if s == "" then [""]
    else if s[0] == ' ' then [""] + SplitOnSpace(s[1..])
    else
      var rest := SplitOnSpace(s[1..]);
      [[s[0]] + rest[0]] + rest[1..]
  }

  /** A space-free word followed by a space is cut off as one part. */
  lemma {:induction false} SplitAfterWord(w: string, t: string)
    requires ' ' !in w
    ensures SplitOnSpace(w + " " + t) == [w] + SplitOnSpace(t)
    decreases |w|
  {
    var s := w + " " + t;
    if w == "" {
      assert s[0] == ' ' && s[1..] == t;
    } else {
      assert s[0] == w[0] && s[1..] == w[1..] + " " + t;
      SplitAfterWord(w[1..], t);
      assert [w[0]] + w[1..] == w;
    }
  }

  /** A space-free word is a single part. */
  lemma {:induction false} SplitWord(w: string)
    requires ' ' !in w
    ensures SplitOnSpace(w) == [w]
    decreases |w|
  {
    if w != "" {
      SplitWord(w[1..]);
      assert [w[0]] + w[1..] == w;
    }
  }

  /**
   * Joining loses nothing when no word holds a space: the words come back
   * from the command text. (With spaces inside words, distinct argument
   * lists share one command text, and so one cache file.)
   */
  lemma {:induction false} SplitJoinArgs(words: seq<string>)
    requires |words| >= 1
    requires forall k :: 0 <= k < |words| ==> ' ' !in words[k]
    ensures SplitOnSpace(JoinArgs(words)) == words
    decreases |words|
  {
    if |words| == 1 {
      SplitWord(words[0]);
    } else {
      SplitJoinArgs(words[1..]);
      SplitAfterWord(words[0], JoinArgs(words[1..]));
    }
  }

  /** Quoting is lost in the join: `fzfcache ls -la` and `fzfcache 'ls -la'` run the same text. */
  lemma JoinArgsMerges()
    ensures JoinArgs(["ls", "-la"]) == JoinArgs(["ls -la"])
  {
  }
}
