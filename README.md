# pacz in Dafny

pacz watches one directory and reruns a command on each change. It is invoked as
`pacz [-d <directory>] [-f <filename-regex>] [-w <command-cwd>] -- <command>`. It starts the
command once. Then, for every filesystem notification whose path matches the filename filter
and which reports a create, a write or a remove, it kills the running child and starts the
command again.

This project models the three deterministic parts of `main.go`:

- **The argument scanner** (module `Cli`, file `cli.dfy`). `ParseArgs` is the loop as the
  program runs it. It has one index over the whole argument vector, program name included, and
  an extra increment whenever a value is consumed. It is proved equal to `Parse`, a recursive
  definition built from `Visit` (what one position does) and `Next` (which position comes
  next). The lemmas about `Parse` state when it succeeds, which value each setting ends up with,
  and which error it reports.
- **The qualification test** (module `Events`, file `events.dfy`). `Qualifies` reads the
  fsnotify operation mask bit by bit. `Kinds` and `Mask` convert between the mask and a set of
  operation kinds, and the lemmas tie the test to that set.
- **The restart loop** (module `Supervisor`, file `supervisor.dfy`). The class `Dispatcher`
  holds the current child. Its constructor performs the first start. `Step` handles one
  notification, and `Feed` handles a sequence of them. `Supervise` is the whole run after a
  successful parse.

The regular-expression engine is a parameter. `compile: string -> Result<R, string>` stands for
`regexp.Compile` and yields a filter of the abstract type `R` or the engine's error text.
`matches: (R, string) -> bool` stands for `MatchString`. The default filter is
`compile(".*")`, so the parser requires that this compiles, as it does in Go.

What the code does, which the usage line does not suggest:

- The scan does not stop at `--`. The index jumps over the command's first word, and every
  later word of the command is scanned like any other argument. So `pacz -- ls -d /tmp`
  watches `/tmp`, and `pacz -- a -- b` runs `b` (`Cli.FlagInsideCommand`). The command itself
  is always the whole suffix after the last `--` the scanner visits.
- The program name is scanned too.
- A flag that is the last argument fails only when the scanner reaches it. For example,
  `pacz -- x -d -f` succeeds and watches the directory `-f`. So the failure lemmas are stated
  over `Cli.Visited`, the positions the scanner actually examines.

## Model

| member | source | states |
|---|---|---|
| `Cli.KindOf` | main.go:57-78 | An argument is a filter, directory or working-directory flag exactly when it starts with `-f`, `-d` or `-w`, and a terminator exactly when it is `--`. The four tests exclude each other, so the order in which they are tried does not matter. |
| `Cli.Visit` | main.go:57-84 | Scanning one position succeeds exactly when it is acceptable (a plain word, or a flag with a following value that compiles for `-f`). A flag in last position fails with its own "Expected ..." error, and any other failure is a rejected pattern. |
| `Cli.Scan` | main.go:55-85 | The scan never produces the usage error; that is issued only after the loop. |
| `Cli.ParseArgs` | main.go:49-89 | The imperative loop, with its double increment after a consumed value, gives exactly the result of `Parse` on every argument vector, errors included. |
| `Cli.Visited` | main.go:55-84 | The positions the scanner examines lie inside the vector and start at the first argument, which is the program name. |
| `Cli.LastOfIsLast` | main.go:55-84 | `LastOf` returns a visited position of the requested kind with no later visited position of that kind, or nothing exactly when no visited position has that kind. |
| `Cli.ValueNeverScanned` | main.go:65-83 | The argument after a visited flag or `--` is never itself visited, so a value, or the command's first word, is never read as a flag. |
| `Cli.ScanOkIff` | main.go:55-85 | From any position, the scan succeeds exactly when every position it visits is acceptable. |
| `Cli.ScanTakesLastValues` | main.go:55-85 | After a successful scan, each setting holds the value of the last visited flag of its kind, or its starting value when there is none. The command is the whole suffix after the last visited `--`. |
| `Cli.ParseOkIff` | main.go:55-89 | Parsing succeeds exactly when every visited position is acceptable and some visited position is `--`. |
| `Cli.ParseTakesLastValues` | main.go:49-89 | On success, the filter, directory, working directory and command come from the last visited flag of each kind, or are the defaults `compile(".*")`, `"."` and `"."`. A `--` was visited and the command is non-empty. |
| `Cli.ScanDangling` | main.go:57-80 | A visited flag or `--` in last position makes the scan fail. The error is that flag's "Expected ..." error, or an earlier rejected pattern, and it is the former when every earlier visited position is acceptable. |
| `Cli.DanglingFlagFails` | main.go:57-80 | The same for the whole parse: a flag or `--` that the scanner reaches as the last argument produces no configuration. |
| `Cli.NoCommandWithoutTerminator` | main.go:87-89 | When no visited position is `--`, parsing fails. It fails with the usage message exactly when every visited position is acceptable. |
| `Cli.FullInvocation` | main.go:49-89 | `pacz -f <p> -d ./src -w ./build -- go run main.go` gives filter `compile(p)`, directory `./src`, working directory `./build` and command `go run main.go`. |
| `Cli.FlagInsideCommand` | main.go:55-85 | `-- ls -d /tmp` watches `/tmp` and keeps the whole command. `-- -d /tmp` does not, because the first command word is skipped. `-- a -- b` runs only `b`. |
| `Cli.ValueIsNotAFlag` | main.go:66-88 | `-d --` sets the directory to `--` and gives no command (usage error). `-d -- -- x` runs `x` in a watch directory named `--`. |
| `Events.Kinds` | main.go:103-106 | An operation kind is in the decoded set exactly when its fsnotify bit is set in the mask. |
| `Events.Mask` | main.go:103-106 | A mask built from kinds uses only the five fsnotify bits. |
| `Events.KindsOfMask` | main.go:103-106 | Decoding a mask built from a set of kinds gives back that set. |
| `Events.MaskOfKinds` | main.go:103-106 | Re-encoding the decoded kinds of a mask gives its five low bits. |
| `Events.QualifiesIff` | main.go:103-106 | A notification qualifies exactly when the filter matches its path and its operation includes a create, a write or a remove. |
| `Events.RenameAndChmodIgnored` | main.go:103-106 | A notification that reports only renames and permission changes never qualifies, whatever its path. |
| `Events.MatchAllFilter` | main.go:49-51 | With a filter that matches every path, such as the default, only the operation kinds decide. |
| `Supervisor.CountQualifying` | main.go:103-106 | The number of qualifying notifications is at most the number of notifications. It is zero exactly when none qualifies. |
| `Supervisor.Dispatcher.constructor` | main.go:91 | Start-up starts the command once: child 0 runs the command's first word with the rest as arguments, in the configured working directory. There is one start and no kill. |
| `Supervisor.Dispatcher.RunCommand` | main.go:25-37 | A start yields the next handle in start order, running `command[0]` with `command[1..]` in the working directory, and changes nothing else. |
| `Supervisor.Dispatcher.Step` | main.go:103-115 | A qualifying notification kills the current child (its handle and process are set) and makes a fresh start current. Any other notification changes nothing. Invariant kept: exactly one current child, and every earlier child killed exactly once, in start order. |
| `Supervisor.Dispatcher.Feed` | main.go:100-115 | Over a sequence of notifications, starts and kills each grow by the number of qualifying ones. The current child is unchanged when none qualifies, and earlier history is kept. |
| `Supervisor.Supervise` | main.go:91-115 | After start-up and N qualifying notifications, the command has been started N+1 times and killed N times. |

## Left out

- Creating, registering and closing the filesystem watcher, and its event and error channels
  (main.go:43-47, 93-96, 116-117). These are calls into the fsnotify library and the operating
  system. A watcher error ends the program, and that is not modelled.
- Signal registration and the signal branch that clears the screen and exits with status 0
  (main.go:40-41, 118-120). This is operating-system signal delivery.
- The `select` over the three channels (main.go:100-122). Only the handling of one
  filesystem notification at a time is modelled, in delivery order.
- Spawning and killing processes (main.go:25-37, 109). These are `os/exec` calls. A start is a
  new `Handle` and a kill is an entry in the ghost history `killed`. A failed spawn, which
  ends the program with status 1 (main.go:31-34), is not modelled.
- The regular-expression engine (`regexp.Compile`, `MatchString`). It is a parameter, so
  the text of a compile error is whatever the engine reports.
- Clearing the screen, writing messages and exiting (main.go:16-23, 98, 112). A failed parse
  is an `Err` value, and `Cli.Message` gives the text the program prints for it.
- Supervisor.Dispatcher.Step: in the model a start always sets the process reference, so the
  guard before a kill is always true and a qualifying notification always counts as a kill.
  The program checks the guard only defensively.
