/**
 * One invocation of fzfcache: replay the cache file of the command, run the
 * command and show its new lines, and overwrite the cache file with the
 * command's output. The file system, the child process and the hash that
 * names the cache file are inputs: a store of file contents, a world that
 * says what the command prints and which step fails, and a key function.
 */
module FzfCache {
  import opened Wrappers
  import opened Lines
  import opened Config
  import opened Dedup

  /** Cache files by path, each holding its content. */
  type Store = map<string, string>

  /** The steps of an invocation that can fail. */
  datatype Step =
    | OpenCache     // the cache file exists but cannot be opened
    | ReadCache     // reading the cache file fails part way
    | StdoutPipe    // no pipe for the child's standard output
    | StderrPipe    // no pipe for the child's standard error
    | CreateTemp    // the temporary file cannot be created
    | Start         // the child cannot be started
    | Wait          // the child exits with an error
    | RemoveTemp    // the temporary file cannot be removed afterwards

  /**
   * What the outside world does: the step that fails, if any; how many
   * characters of the cache file are read before a read error; and the lines
   * the command prints.
   */
  datatype World = World(fault: Option<Step>, charsBeforeReadError: nat, output: seq<Line>)

  /** What cachedCommand leaves behind. */
  datatype RunResult = RunResult(
    stdout: seq<Line>,             // lines written to standard output
    store: Store,                  // cache files afterwards
    child: Option<seq<string>>,    // the command line of the child, when it ran
    tempCreated: bool,             // a temporary file was created
    err: Option<Step>)             // the error returned, if any

  /** What one invocation of the program leaves behind. */
  datatype Outcome = Outcome(
    stdout: seq<Line>,
    store: Store,
    child: Option<seq<string>>,
    tempLeft: bool,                // a temporary file remains on disk
    exitCode: int)

  /** The path of the cache file of `command`. */
  function CachePath(env: Env, key: string -> string, command: string): (path: string)
    ensures key(command) != "" ==> path == CacheDir(env) + "/" + key(command)
    ensures key(command) == "" ==> path == CacheDir(env)
  {
    PathJoin(CacheDir(env), key(command))
  }

  /** A step before the temporary file exists, from which nothing is published. */
  predicate FailsBeforePublish(fault: Option<Step>)
  {
    fault == Some(StdoutPipe) || fault == Some(StderrPipe) || fault == Some(CreateTemp)
  }

  /** The lines of the cache file at `path`; none when there is no such file. */
  function CachedLines(path: string, store: Store): seq<Line>
  {
    if path in store then SplitLines(store[path]) else []
  }

  /**
   * The lines replayed from the cache file before the command runs. A file
   * that cannot be opened shows nothing. A read error stops the scanner
   * where it happens, and the scanner still yields the part of a line it
   * holds as a last line.
   */
  function Replayed(path: string, store: Store, world: World): (r: seq<Line>)
    ensures path !in store ==> r == []
    ensures world.fault == Some(OpenCache) ==> r == []
    ensures world.fault != Some(OpenCache) && world.fault != Some(ReadCache) ==>
      r == CachedLines(path, store)
    ensures TruncatedPrefix(r, CachedLines(path, store))
  {
    if path !in store || world.fault == Some(OpenCache) then []
    else if world.fault == Some(ReadCache) then
      var content := store[path];
      var n := if world.charsBeforeReadError < |content| then world.charsBeforeReadError else |content|;
      SplitLinesPrefix(content, n);
      SplitLines(content[..n])
    else
      CachedLines(path, store)
  }

  /** The command line of the child: the shell, its -c flag, and the command. */
  function Argv(env: Env, command: string): (argv: seq<string>)
    ensures |argv| == 3 && argv[1] == "-c" && argv[2] == command
    ensures env.shell != "" ==> argv[0] == env.shell
    ensures env.shell == "" ==> argv[0] == "sh"
  {
    [DefaultShell(env.shell), "-c", command]
  }

  /**
   * What cachedCommand does for the cache file at `path` and the child
   * command line `argv`, as a function of the store and the world.
   */
  function RunAt(path: string, argv: seq<string>, store: Store, world: World): RunResult
  {
    var replayed := Replayed(path, store, world);
    if path in store && world.fault == Some(OpenCache) then
      RunResult(replayed, store, None, false, Some(OpenCache))
    else if path in store && world.fault == Some(ReadCache) then
      RunResult(replayed, store, None, false, Some(ReadCache))
    else if FailsBeforePublish(world.fault) then
      RunResult(replayed, store, None, false, world.fault)
    else if world.fault == Some(Start) then
      RunResult(replayed, store[path := ""], None, true, Some(Start))
    else
      RunResult(replayed + Unseen(Elems(replayed), world.output),
                store[path := Render(world.output)],
                Some(argv),
                true,
                if world.fault == Some(Wait) then Some(Wait) else None)
  }

  /** What cachedCommand does, as a function of its inputs. */
  function CachedCommandSpec(command: string, env: Env, key: string -> string, store: Store, world: World): RunResult
  {
    RunAt(CachePath(env, key, command), Argv(env, command), store, world)
  }

  /** How the program ends after cachedCommand: an error or a failed removal gives exit code 1. */
  function Finish(r: RunResult, world: World): Outcome
  {
    if r.err.Some? then Outcome(r.stdout, r.store, r.child, r.tempCreated, 1)
    else if world.fault == Some(RemoveTemp) then Outcome(r.stdout, r.store, r.child, true, 1)
    else Outcome(r.stdout, r.store, r.child, false, 0)
  }

  /** One invocation that gets past flag parsing, for the cache file at `path`. */
  function Invocation(path: string, argv: seq<string>, store: Store, world: World): Outcome
  {
    Finish(RunAt(path, argv, store, world), world)
  }

  /** What the whole program does, as a function of its inputs. */
  function FzfcacheSpec(args: seq<string>, env: Env, key: string -> string, store: Store, world: World): Outcome
  {
    match ParseFlags(args)
    case Exit(code) => Outcome([], store, None, false, code)
    case Command(words) => Finish(CachedCommandSpec(JoinArgs(words), env, key, store, world), world)
  }

  /**
   * Replays the cache file, runs the command feeding each output line to the
   * deduplicator, and publishes the temporary file over the cache file. Once
   * the temporary file exists the publish is deferred, so it happens even
   * when starting or waiting for the child fails.
   */
  method CachedCommand(command: string, env: Env, key: string -> string, store: Store, world: World)
    returns (r: RunResult)
    ensures r == CachedCommandSpec(command, env, key, store, world)
  {
    var path := CachePath(env, key, command);
    var run := new Deduplicator();
    if path in store {
      if world.fault == Some(OpenCache) {
        return RunResult(run.shown, store, None, false, Some(OpenCache));
      }
      var content := store[path];
      if world.fault == Some(ReadCache) {
        var n := if world.charsBeforeReadError < |content| then world.charsBeforeReadError else |content|;
        run.Replay(SplitLines(content[..n]));
        return RunResult(run.shown, store, None, false, Some(ReadCache));
      }
      run.Replay(SplitLines(content));
    }
    var argv := Argv(env, command);
    if FailsBeforePublish(world.fault) {
      return RunResult(run.shown, store, None, false, world.fault);
    }
    if world.fault == Some(Start) {
      return RunResult(run.shown, store[path := run.temp], None, true, Some(Start));
    }
    ghost var replayed := run.shown;
    assert replayed == Replayed(path, store, world);
    run.FeedAll(world.output);
    assert run.shown == replayed + Unseen(Elems(replayed), world.output);
    assert run.temp == Render(world.output);
    var err := if world.fault == Some(Wait) then Some(Wait) else None;
    r := RunResult(run.shown, store[path := run.temp], Some(argv), true, err);
  }

  /** Parses the arguments, runs the cached command, and maps errors to exit code 1. */
  method Fzfcache(args: seq<string>, env: Env, key: string -> string, store: Store, world: World)
    returns (o: Outcome)
    ensures o == FzfcacheSpec(args, env, key, store, world)
  {
    var flags := ParseFlags(args);
    match flags
    case Exit(code) =>
      o := Outcome([], store, None, false, code);
    case Command(words) =>
      var r := CachedCommand(JoinArgs(words), env, key, store, world);
      if r.err.Some? {
        o := Outcome(r.stdout, r.store, r.child, r.tempCreated, 1);
      } else if world.fault == Some(RemoveTemp) {
        o := Outcome(r.stdout, r.store, r.child, true, 1);
      } else {
        o := Outcome(r.stdout, r.store, r.child, false, 0);
      }
  }

  /** The invocation gets as far as running the command: no step before it fails. */
  predicate RunsCommand(path: string, store: Store, world: World)
  {
    && !(path in store && (world.fault == Some(OpenCache) || world.fault == Some(ReadCache)))
    && !FailsBeforePublish(world.fault)
    && world.fault != Some(Start)
  }

  /** A step that fails after the command has run: waiting for it, or removing the temporary file. */
  predicate FailsAfterRun(fault: Option<Step>)
  {
    fault == Some(Wait) || fault == Some(RemoveTemp)
  }

  /** Past flag parsing, the program is the invocation for the command's cache file and command line. */
  lemma FzfcacheInvokes(args: seq<string>, env: Env, key: string -> string, store: Store, world: World)
    requires ParseFlags(args).Command?
    ensures FzfcacheSpec(args, env, key, store, world) ==
      Invocation(CachePath(env, key, JoinArgs(args)), Argv(env, JoinArgs(args)), store, world)
  {
  }

  /**
   * Replay then refresh: standard output is the cache file's lines followed
   * by the output lines not seen yet; the cache file is replaced by the
   * whole output, which reads back line for line; the exit code is 0 only
   * when nothing failed.
   */
  lemma RefreshAfterReplay(path: string, argv: seq<string>, store: Store, world: World)
    requires RunsCommand(path, store, world)
    ensures var cached := CachedLines(path, store);
      var o := Invocation(path, argv, store, world);
      && o.stdout == cached + Unseen(Elems(cached), world.output)
      && o.store == store[path := Render(world.output)]
      && SplitLines(o.store[path]) == world.output
      && o.child == Some(argv)
      && (o.exitCode == 0 <==> !FailsAfterRun(world.fault))
      && (o.tempLeft <==> FailsAfterRun(world.fault))
  {
    assert Replayed(path, store, world) == CachedLines(path, store);
    SplitRender(world.output);
  }

  /**
   * What the run phase adds to standard output: no line twice, no line the
   * cache already showed, every other output line, in the order the command
   * first printed them. Together with the replay, every line of the cache
   * and of the output has been shown.
   */
  lemma RunShowsOnlyNewLines(path: string, argv: seq<string>, store: Store, world: World)
    requires RunsCommand(path, store, world)
    ensures var cached := CachedLines(path, store);
      var o := Invocation(path, argv, store, world);
      var added := o.stdout[|cached|..];
      && |cached| <= |o.stdout| && o.stdout[..|cached|] == cached
      && NoDuplicates(added)
      && (forall x :: x in added ==> x !in cached)
      && Elems(added) == Elems(world.output) - Elems(cached)
      && InFirstOccurrenceOrder(added, world.output)
      && Elems(o.stdout) == Elems(cached) + Elems(world.output)
  {
    var cached := CachedLines(path, store);
    var r := Unseen(Elems(cached), world.output);
    assert Invocation(path, argv, store, world).stdout == cached + r by {
      RefreshAfterReplay(path, argv, store, world);
    }
    assert (cached + r)[|cached|..] == r;
    UnseenNoDuplicates(Elems(cached), world.output);
    UnseenElems(Elems(cached), world.output);
    UnseenOrder(Elems(cached), world.output);
    ShownCoversBoth(cached, world.output);
  }

  /**
   * A command that fails after it ran still has its output shown and
   * published; the invocation exits with 1 and leaves its temporary file.
   */
  lemma FailedCommandStillPublishes(path: string, argv: seq<string>, store: Store, world: World)
    requires world.fault == Some(Wait)
    ensures var cached := CachedLines(path, store);
      var o := Invocation(path, argv, store, world);
      && o.stdout == cached + Unseen(Elems(cached), world.output)
      && path in o.store && SplitLines(o.store[path]) == world.output
      && o.exitCode == 1 && o.tempLeft
  {
    RefreshAfterReplay(path, argv, store, world);
  }

  /**
   * A child that cannot be started leaves the cache file empty: the
   * temporary file was already created and is published with nothing in it.
   */
  lemma StartFailureEmptiesCache(path: string, argv: seq<string>, store: Store, world: World)
    requires world.fault == Some(Start)
    ensures var o := Invocation(path, argv, store, world);
      && o.stdout == CachedLines(path, store)
      && o.store == store[path := ""]
      && SplitLines(o.store[path]) == []
      && o.child == None && o.exitCode == 1 && o.tempLeft
  {
  }

  /**
   * A failure before the temporary file exists publishes nothing: the cache
   * is as it was. What was shown is the cache's first lines, the last of
   * them possibly cut short by a read error; it is all of the cache when
   * the cache was read in full, and nothing when it could not be opened.
   */
  lemma EarlyFailureKeepsCache(path: string, argv: seq<string>, store: Store, world: World)
    requires || FailsBeforePublish(world.fault)
             || (path in store && (world.fault == Some(OpenCache) || world.fault == Some(ReadCache)))
    ensures var cached := CachedLines(path, store);
      var o := Invocation(path, argv, store, world);
      && o.store == store
      && TruncatedPrefix(o.stdout, cached)
      && (FailsBeforePublish(world.fault) ==> o.stdout == cached)
      && (world.fault == Some(OpenCache) ==> o.stdout == [])
      && o.child == None && o.exitCode == 1 && !o.tempLeft
  {
  }

  /**
   * A read error inside a line: with cache a, b, c / d, e, f and the read
   * failing after a, b, c, line feed, d, e, the invocation shows the line
   * abc and the cut line de, and stops.
   */
  lemma ExampleReadErrorMidLine(path: string, argv: seq<string>, store: Store)
    requires path in store && store[path] == "abc\ndef\n"
    ensures var o := Invocation(path, argv, store, World(Some(ReadCache), 6, []));
      && o.stdout == ["abc", "de"]
      && o.store == store && o.exitCode == 1
  {
    assert store[path][..6] == "abc" + "\n" + "de";
    SplitLinesAfterLine("abc", "de");
    SplitLinesLast("de");
  }

  /** An invocation writes no cache file other than that of its own command. */
  lemma OnlyOwnEntryChanges(args: seq<string>, env: Env, key: string -> string, store: Store, world: World, p: string)
    requires ParseFlags(args).Exit? || p != CachePath(env, key, JoinArgs(ParseFlags(args).words))
    ensures var o := FzfcacheSpec(args, env, key, store, world);
      && (p in o.store <==> p in store)
      && (p in store ==> o.store[p] == store[p])
  {
  }

  /** Unless the cache file cannot be read, standard output starts with all of its lines. */
  lemma ReplayComesFirst(path: string, argv: seq<string>, store: Store, world: World)
    requires world.fault != Some(OpenCache) && world.fault != Some(ReadCache)
    ensures var cached := CachedLines(path, store);
      var o := Invocation(path, argv, store, world);
      |cached| <= |o.stdout| && o.stdout[..|cached|] == cached
  {
    assert Replayed(path, store, world) == CachedLines(path, store);
  }

  /**
   * Round trip: once an invocation has run its command, the next
   * invocation of the same command that reads the cache file shows that
   * output first, line for line; if it also runs the command, the rest is
   * the new output's lines not in the old one.
   */
  lemma SecondRunReplaysFirst(path: string, argv: seq<string>, store: Store, world1: World, world2: World)
    requires RunsCommand(path, store, world1)
    requires world2.fault != Some(OpenCache) && world2.fault != Some(ReadCache)
    ensures var o1 := Invocation(path, argv, store, world1);
      var o2 := Invocation(path, argv, o1.store, world2);
      && |world1.output| <= |o2.stdout|
      && o2.stdout[..|world1.output|] == world1.output
      && (RunsCommand(path, o1.store, world2) ==>
            o2.stdout == world1.output + Unseen(Elems(world1.output), world2.output))
  {
    RefreshAfterReplay(path, argv, store, world1);
    var o1 := Invocation(path, argv, store, world1);
    assert CachedLines(path, o1.store) == world1.output;
    ReplayComesFirst(path, argv, o1.store, world2);
    if RunsCommand(path, o1.store, world2) {
      RefreshAfterReplay(path, argv, o1.store, world2);
    }
  }

  /** No arguments: usage and exit code 1. A lone help flag: usage and exit code 0. Nothing else happens. */
  lemma UsageExits(args: seq<string>, env: Env, key: string -> string, store: Store, world: World)
    requires args == [] || (|args| == 1 && IsHelpFlag(args[0]))
    ensures FzfcacheSpec(args, env, key, store, world) ==
      Outcome([], store, None, false, if args == [] then 1 else 0)
  {
  }

  /**
   * The exit code is 0 or 1; it is 0 exactly when help was asked for or the
   * command ran and nothing failed, and then no temporary file is left.
   */
  lemma ExitCodes(args: seq<string>, env: Env, key: string -> string, store: Store, world: World)
    ensures var o := FzfcacheSpec(args, env, key, store, world);
      && (o.exitCode == 0 || o.exitCode == 1)
      && (o.exitCode == 0 <==>
            ParseFlags(args) == Exit(0) ||
            (ParseFlags(args).Command? &&
             RunsCommand(CachePath(env, key, JoinArgs(args)), store, world) &&
             !FailsAfterRun(world.fault)))
      && (o.exitCode == 0 ==> !o.tempLeft)
  {
  }

  /** The lines of the file content x, y. */
  lemma SplitLinesXY()
    ensures SplitLines("x\ny\n") == ["x", "y"]
  {
    SplitLinesAfterLine("x", "y\n");
    SplitLinesAfterLine("y", "");
    assert "x\ny\n" == "x" + "\n" + "y\n";
    assert "y\n" == "y" + "\n" + "";
  }

  /** The refresh example: cache x, y and output y, z show x, y, z and leave y, z in the cache. */
  lemma ExampleRefresh(path: string, argv: seq<string>, store: Store)
    requires path in store && store[path] == "x\ny\n"
    ensures var o := Invocation(path, argv, store, World(None, 0, ["y", "z"]));
      && o.stdout == ["x", "y", "z"]
      && path in o.store && o.store[path] == "y\nz\n"
      && o.exitCode == 0
  {
    var output: seq<Line> := ["y", "z"];
    var world := World(None, 0, output);
    assert CachedLines(path, store) == ["x", "y"] by {
      SplitLinesXY();
    }
    assert Unseen(Elems(["x", "y"]), output) == ["z"] by {
      assert Elems(["x", "y"]) == {"x", "y"};
    }
    RefreshAfterReplay(path, argv, store, world);
  }

  /**
   * Output a, a, b, a with no cache shows a, b but caches all four lines;
   * so the next invocation replays a three times, because replay does not
   * check for duplicates.
   */
  lemma ExampleRepeatedLines(path: string, argv: seq<string>, store: Store)
    requires path !in store
    ensures var o1 := Invocation(path, argv, store, World(None, 0, ["a", "a", "b", "a"]));
      var o2 := Invocation(path, argv, o1.store, World(None, 0, []));
      && o1.stdout == ["a", "b"]
      && path in o1.store && SplitLines(o1.store[path]) == ["a", "a", "b", "a"]
      && o2.stdout == ["a", "a", "b", "a"]
  {
    var out: seq<Line> := ["a", "a", "b", "a"];
    var empty: seq<Line> := [];
    var world1, world2 := World(None, 0, out), World(None, 0, empty);
    assert Unseen(Elems(empty), out) == ["a", "b"] by {
      assert Elems(empty) == {};
    }
    RefreshAfterReplay(path, argv, store, world1);
    var o1 := Invocation(path, argv, store, world1);
    assert Invocation(path, argv, o1.store, world2).stdout == out + Unseen(Elems(out), empty) by {
      SecondRunReplaysFirst(path, argv, store, world1, world2);
    }
  }
}
