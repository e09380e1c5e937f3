# fzfcache in Dafny

fzfcache runs a shell command and caches its output. It is meant to sit in
front of a fuzzy finder. It keeps one cache file per command text, and each
invocation does three things:

1. **Replay.** It prints the lines of the cache file at once and records
   each of them as seen.
2. **Run.** It runs the command through `$SHELL -c`, or `sh -c` when SHELL is
   empty. Each output line goes to a temporary file. A line also goes to
   standard output when it has not been seen yet.
3. **Publish.** A deferred function copies the temporary file over the cache
   file. After a run in which the command was started, the cache holds
   that run's complete output, duplicates included. If the command could
   not be started, the cache is left empty. Both hold only as modelled.
   Several things can break them; see "Left out": a closed standard output,
   the race between Wait and the output goroutine, a failed copy, and a
   failed write to the temporary file.

The model covers this sequence, the flag parsing before it and the
environment lookups it depends on. It consists of five modules:

- `Wrappers`: an `Option` type.
- `Lines`: a line is a string without a line feed.
  - `Render` is the cache file format: every line followed by `"\n"`.
  - `SplitLines` is what a line scanner yields when it reads a file.
  - `SplitRender` and `RenderSplit` prove the two are inverse.
- `Dedup`: the deduplication.
  - The pure function `Unseen(seen, out)` is the specification: the lines of
    `out` that are not in `seen`, each at its first occurrence, in order.
  - The class `Deduplicator` holds the state that `cachedCommand` updates:
    - the set of printed lines, `seen`;
    - the lines sent to standard output, `shown`;
    - the temporary file's content, `temp`.
  - Its methods `Replay`, `Feed` and `FeedAll` are the replay loop and the
    stdout loop. Their contracts tie the new state to `Unseen` and `Render`
    of the old state.
  - Lemmas prove what `Unseen` promises: no duplicates, disjoint from what
    was seen, the right set of lines, and first-occurrence order.
- `Config`: `getCacheDir`, the shell default, `parseFlags`, and the join of
  the arguments into one command text.
- `FzfCache`: the orchestration.
  - The file system is a `Store`, a map from path to content.
  - The SHA-1 file name is a parameter `key: string -> string`.
  - The child process and every failure point are a `World` value. It gives
    the lines the command prints, plus at most one step that fails. For a
    failing cache read, it also gives how many characters were read before
    the error.
  - The methods `CachedCommand` and `Fzfcache` follow the Go control flow
    step by step. They are proved equal to the functions `CachedCommandSpec`
    and `FzfcacheSpec`.
  - The lemmas state the program's behaviour in terms of these functions:
    replay then refresh, round trips across two invocations, what each
    failure publishes, and the exit codes.
  - Most of those lemmas are stated over `Invocation(path, argv, store,
    world)`. That is one invocation past flag parsing, for the cache file at
    `path` with child command line `argv`. `FzfcacheInvokes` shows that
    `FzfcacheSpec` is exactly this invocation with the command's cache path
    and command line.

Three facts about the code shape the model:

- **The publish copies in place.** The code copies the temporary file over
  the cache file with `os.Create` and `ReadFrom` (`main.go:53-66`). Nothing
  is renamed. The model treats that copy as one update of the store.
- **The cache keeps duplicate lines.** The comment at `main.go:92` assumes
  the cache file holds no duplicates. That is why replay does not check
  for them. But `main.go:146` stages every output line, duplicates and
  all. `ExampleRepeatedLines` shows the outcome: a run that prints
  `a, a, b, a` caches all four lines, and the next invocation replays `a`
  three times.
- **A failed start publishes an empty file.** Once the temporary file
  exists, the deferred copy is armed (`main.go:126-132`). So a failed
  `cmd.Start` (`main.go:161-164`) publishes the still empty temporary file.
  See `StartFailureEmptiesCache`.

## Model

| member | source | states |
|---|---|---|
| Lines.Render | main.go:146 | the file content is empty exactly when there are no lines, and otherwise ends with a line feed |
| Lines.SplitLines | main.go:89-91 | a scanner yields no lines exactly from empty content |
| Lines.RenderAppend | main.go:146 | writing one more line appends that line and a line feed to the file |
| Lines.RenderConcat | main.go:137-148 | the file for two runs of lines is the two files one after the other |
| Lines.SplitLinesLast | main.go:89-91 | a non-empty line with no line feed after it is read as exactly that one line |
| Lines.SplitLinesUnterminated | main.go:89-91 | a file whose last line has no line feed yields all its lines, that last one included |
| Lines.SplitLinesPrefix | main.go:89-97 | a reader that stops after any number of characters has got the file's first lines, the last of them possibly cut short |
| Lines.SplitLinesAfterLine | main.go:89-91 | a line followed by a line feed is read back as exactly that line, and reading continues after it |
| Lines.SplitRender | main.go:89-95 | reading back a written file yields exactly the lines written |
| Lines.RenderSplit | main.go:89-95 | content that is empty or ends in a line feed is rewritten byte for byte from its lines |
| Dedup.Unseen | main.go:140-144 | what is shown is at most the output's length, and shows only output lines not already seen |
| Dedup.UnseenAppend | main.go:140-144 | one more output line extends what is shown by that line exactly when neither the seen set nor the earlier output holds it |
| Dedup.UnseenNoDuplicates | main.go:140-144 | no line is shown twice |
| Dedup.UnseenElems | main.go:140-144 | the lines shown are exactly the output's lines minus the seen ones |
| Dedup.UnseenOrder | main.go:137-144 | lines are shown in the order of their first occurrence in the output |
| Dedup.ShownCoversBoth | main.go:89-148 | replay plus the new lines shows every line of the cache and of the output |
| Dedup.Deduplicator.constructor | main.go:81 | starts the run with nothing seen, nothing shown and an empty temporary file |
| Dedup.Deduplicator.Replay | main.go:89-95 | prints every cached line, duplicates too, marks all of them seen, and stages nothing |
| Dedup.Deduplicator.Feed | main.go:137-148 | prints the line only if it was not seen, marks it seen, and always appends it and a line feed to the temporary file |
| Dedup.Deduplicator.FeedAll | main.go:137-150 | after the whole output: shown grows by `Unseen` of the output, seen grows by the output's lines, and the temporary file grows by the output's rendering |
| Config.CacheDir | main.go:37-45 | FZFCACHE_DIR when set, else XDG_CACHE_HOME/fzfcache, else HOME/.cache/fzfcache; never empty |
| Config.PathJoin | main.go:42-44 | the directory, a slash and the name, with an empty element and its slash dropped: the result starts with the directory and ends with the name |
| Config.CacheDirPrecedence | main.go:37-45 | a variable later in the precedence order never changes the directory once an earlier one is set |
| Config.DefaultShell | main.go:103-106 | SHELL when non-empty, otherwise `sh` |
| Config.ParseFlags | main.go:23-35 | exit 1 exactly for no arguments; exit 0 exactly for a lone `-h`, `-help` or `--help`; otherwise the arguments unchanged |
| Config.JoinArgs | main.go:174 | a single word is the command text itself |
| Config.SplitOnSpace | main.go:174 | cutting at spaces gives at least one part, and no part holds a space |
| Config.SplitJoinArgs | main.go:174 | words without spaces come back from the joined command text |
| Config.JoinArgsMerges | main.go:174 | `ls -la` as two words and as one word give the same command text |
| FzfCache.Argv | main.go:103-107 | the child runs as shell, `-c`, command, where the shell is SHELL when it is non-empty and `sh` otherwise |
| FzfCache.CachedCommand | main.go:75-171 | the step-by-step run equals `CachedCommandSpec` for every store and world |
| FzfCache.Fzfcache | main.go:173-191 | parse, run and exit code equal `FzfcacheSpec` for every input |
| FzfCache.FzfcacheInvokes | main.go:173-175 | past flag parsing, the program is the invocation for the joined command's cache path and command line |
| FzfCache.RefreshAfterReplay | main.go:84-170 | when the command runs: the cache is replayed and then the unseen output is shown; the cache file becomes the output and reads back as it; exit 0 exactly when neither Wait nor the removal fails |
| FzfCache.RunShowsOnlyNewLines | main.go:137-148 | after the replayed prefix: no duplicates, nothing already cached, exactly the new lines, in first-occurrence order; everything shown covers the cache and the output |
| FzfCache.FailedCommandStillPublishes | main.go:166-169 | a command failing at Wait still has its output shown and published, exits 1 and leaves the temporary file |
| FzfCache.StartFailureEmptiesCache | main.go:161-164 | a failed start shows the cache, publishes an empty cache file, exits 1 and leaves the temporary file |
| FzfCache.CachePath | main.go:77-78 | the cache file is the cache directory, a slash and the command's key |
| FzfCache.Replayed | main.go:84-98 | nothing without a cache file or when it cannot be opened; the whole cache when it is opened and read without error; after a read error, the cache's first lines, the last possibly cut at the point of the error |
| FzfCache.EarlyFailureKeepsCache | main.go:84-124 | a failure before the temporary file exists leaves the store unchanged and exits 1; what was shown is the cache's first lines, the last possibly cut short, all of them after a pipe or temporary-file failure, and none when the file cannot be opened |
| FzfCache.ExampleReadErrorMidLine | main.go:90-97 | cache abc, def with the read failing after six characters shows abc and the cut line de, then exits 1 with the cache unchanged |
| FzfCache.OnlyOwnEntryChanges | main.go:126-132 | no cache file other than the command's own is created, removed or changed |
| FzfCache.ReplayComesFirst | main.go:84-95 | unless opening or reading the cache fails, standard output starts with all the cached lines |
| FzfCache.SecondRunReplaysFirst | main.go:126-132 | after a run, the next invocation of the same command first replays that run's output line for line, and then shows only lines new to it |
| FzfCache.UsageExits | main.go:25-33 | no arguments exit 1, and a lone help flag exits 0, with nothing shown or written |
| FzfCache.ExitCodes | main.go:186-191 | the exit code is 0 or 1; it is 0 exactly for help or a run where nothing failed, and then no temporary file is left |
| FzfCache.ExampleRefresh | main.go:137-148 | cache x, y and output y, z show x, y, z and leave y, z in the cache |
| FzfCache.ExampleRepeatedLines | main.go:92-146 | output a, a, b, a shows a, b but caches all four lines, which the next invocation replays unchanged |

## Left out

- **The SHA-1 file name** (`main.go:68-73`) is the parameter `key`. Every lemma holds for every key function, colliding ones included. The model does not promise that distinct commands get distinct files.
- **Creating the cache directory** (`main.go:46-49`) is not modelled: `os.MkdirAll`, and the `log.Fatalf` when it fails.
- **A failed copy at publish** (`main.go:130`) is not modelled. The model treats the copy as one successful update of the store. The non-atomic truncate-then-write of `copyFile` (`main.go:53-66`) is left out too.
- **Closing files** (`main.go:99`, `main.go:126`) is not modelled.
- **A failing `tf.WriteString`** (`main.go:146-148`) is not modelled; the code calls `log.Fatal` when it happens.
- **Stderr mirroring** (`main.go:153-159`) is not modelled: the standard error stream is not part of the state.
- **The stdout goroutine** (`main.go:136-151`) is modelled as finishing before `cmd.Wait` returns. Lines lost because Wait closes the pipe before the goroutine has drained it are not modelled.
- **`os.Stat`** (`main.go:84`) is treated as "the file is absent" exactly when the path is not in the store. Other Stat errors are not told apart from absence.
- **Carriage returns** are not stripped in the model, but the scanner strips one at the end of each line it reads. A line is allowed to end in a carriage return. For such a line, the program does not have the round trip that `SplitRender` and `SecondRunReplaysFirst` prove for the model. For example, output `a` followed by two carriage returns and a line feed is scanned as `a` plus one carriage return. It is cached with that carriage return and a line feed, and then replayed as `a` alone.
- **Scanner details** are left out: the 64 KiB line limit on the command's output, and the unchecked `scanner.Err()` of the command's output. On the cache file, the 64 KiB limit stops the scanner before the long line. That is a read error at the start of that line, which the model can express. The command's output is given directly as a sequence of lines.
- **Faults** are limited to at most one failing step per invocation, and only by which step fails. The text of error messages is not modelled.
- **The usage text** (`main.go:16-21`) and the message printed by `main` are not modelled; only the exit codes are.
- **`path.Join`** is modelled without `path.Clean`. Paths with a trailing slash, or with `.` and `..` elements, are joined as written.
- **Writes to standard output** are modelled as never failing. In the real program, fzfcache usually writes into `fzf`, which exits once the user picks a line. Go does not catch SIGPIPE on standard output, so the next `fmt.Println` (`main.go:93` or `main.go:143`) ends the process. The deferred copy (`main.go:127-132`) then never runs: the old cache stays and the temporary file is left behind. The model does not capture this.
- **Byte strings** are not modelled. Go strings are byte strings, and the dedup check at `main.go:140` compares bytes. The model's lines are Dafny strings, which are sequences of characters, so output that is not valid UTF-8 (Latin-1 file names, for instance) has no representation in the model.
- **Concurrent invocations** that share a cache file are not modelled.
