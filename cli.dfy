/**
 * The command-line scanner of pacz (main.go, lines 49-89).
 *
 * The scanner walks the whole argument vector, program name included, with
 * one index. An argument that starts with `-f`, `-d` or `-w` takes the next
 * argument as its value; the exact argument `--` makes the rest of the vector
 * the command. After `--` the scan goes on: the index skips the command's
 * first word and every later word is scanned like any other argument, so a
 * flag or a second `--` inside the command still takes effect.
 *
 * The regular-expression engine is not modelled: `compile` stands for it,
 * yielding a compiled filter of the abstract type `R` or the engine's error
 * text.
 */
module Cli {
  import opened Wrappers

  /** The configuration the scanner builds. */
  datatype Config<R> = Config(filter: R, dir: string, cwd: string, command: seq<string>)

  /** Why the scanner gives up; each case ends the program with exit status 1. */
  datatype ParseError =
    | MissingPattern          // `-f` is the last argument
    | MissingWatchDir         // `-d` is the last argument
    | MissingCwd              // `-w` is the last argument
    | MissingCommand          // `--` is the last argument
    | BadPattern(reason: string)  // the engine rejected the value of `-f`
    | Usage                   // no command was found

  /** The line the program writes to standard error before it exits. */
  function Message(e: ParseError): string
  {
    match e
    case MissingPattern => "Expected filename regex to follow -f flag"
    case MissingWatchDir => "Expected directory to follow -d flag"
    case MissingCwd => "Expected directory to follow -w flag"
    case MissingCommand => "Expected command to run to follow --"
    case BadPattern(reason) => reason
    case Usage => "Usage: pacz [-d <directory>] [-f <filename-regex>] [-w <command-cwd>] -- <command>"
  }

  /** How the scanner reads one argument. */
  datatype Kind = FilterFlag | DirFlag | CwdFlag | Terminator | Word

  predicate HasPrefix(s: string, prefix: string)
  {
    |prefix| <= |s| && s[..|prefix|] == prefix
  }

  /**
   * The classification, in the order the scanner tests it. The four tests
   * exclude each other, so each kind is exactly its own test.
   */
  function KindOf(arg: string): (k: Kind)
    ensures k == FilterFlag <==> HasPrefix(arg, "-f")
    ensures k == DirFlag <==> HasPrefix(arg, "-d")
    ensures k == CwdFlag <==> HasPrefix(arg, "-w")
    ensures k == Terminator <==> arg == "--"
  {
    if HasPrefix(arg, "-f") then FilterFlag
    else if HasPrefix(arg, "-d") then DirFlag
    else if HasPrefix(arg, "-w") then CwdFlag
    else if arg == "--" then Terminator
    else Word
  }

  /** The error for a flag or `--` that has no argument after it. */
  function MissingFor(k: Kind): ParseError
    requires k != Word
  {
    match k
    case FilterFlag => MissingPattern
    case DirFlag => MissingWatchDir
    case CwdFlag => MissingCwd
    case Terminator => MissingCommand
  }

  /** The configuration before any argument is scanned. */
  function Defaults<R>(compile: string -> Result<R, string>): Config<R>
    requires compile(".*").Ok?
  {
    Config(compile(".*").value, ".", ".", [])
  }

  /** Position `k` is acceptable to the scanner: a plain word, or a flag whose value exists and, for `-f`, compiles. */
  predicate WellFormedAt<R>(compile: string -> Result<R, string>, args: seq<string>, k: nat)
    requires k < |args|
  {
    KindOf(args[k]) == Word ||
    (k + 1 < |args| && (KindOf(args[k]) == FilterFlag ==> compile(args[k + 1]).Ok?))
  }

  /** What scanning position `i` does to configuration `c`. */
  function Visit<R>(compile: string -> Result<R, string>, args: seq<string>, i: nat, c: Config<R>): (r: Result<Config<R>, ParseError>)
    requires i < |args|
    ensures r.Ok? <==> WellFormedAt(compile, args, i)
    ensures r.Err? && KindOf(args[i]) != Word && i == |args| - 1 ==> r.error == MissingFor(KindOf(args[i]))
    ensures r.Err? && i < |args| - 1 ==> r.error.BadPattern?
  {
    var kind := KindOf(args[i]);
    if kind == Word then Ok(c)
    else if i == |args| - 1 then Err(MissingFor(kind))
    else if kind == FilterFlag then
      match compile(args[i + 1])
      case Err(reason) => Err(BadPattern(reason))
      case Ok(re) => Ok(c.(filter := re))
    else if kind == DirFlag then Ok(c.(dir := args[i + 1]))
    else if kind == CwdFlag then Ok(c.(cwd := args[i + 1]))
    else Ok(c.(command := args[i + 1..]))
  }

  /** The position the scanner looks at after position `i`: a flag with a value skips that value. */
  function Next(args: seq<string>, i: nat): nat
    requires i < |args|
  {
    if KindOf(args[i]) == Word || i == |args| - 1 then i + 1 else i + 2
  }

  /** The scan from position `i` with configuration `c`, stopping at the first error. */
  function Scan<R>(compile: string -> Result<R, string>, args: seq<string>, i: nat, c: Config<R>): (r: Result<Config<R>, ParseError>)
    requires i <= |args|
    ensures r.Err? ==> r.error != Usage
    decreases |args| - i
  {
    if i == |args| then Ok(c)
    else
      match Visit(compile, args, i, c)
      case Err(e) => Err(e)
      case Ok(c') => Scan(compile, args, Next(args, i), c')
  }

  /** The whole parse: the scan from the defaults, then the check that a command was given. */
  function Parse<R>(compile: string -> Result<R, string>, args: seq<string>): Result<Config<R>, ParseError>
    requires compile(".*").Ok?
  {
    match Scan(compile, args, 0, Defaults(compile))
    case Err(e) => Err(e)
    case Ok(c) => if |c.command| == 0 then Err(Usage) else Ok(c)
  }

  /**
   * The scanner as the program runs it: one index, advanced once more inside
   * the body whenever an argument's value is consumed.
   */
  method ParseArgs<R>(compile: string -> Result<R, string>, args: seq<string>) returns (r: Result<Config<R>, ParseError>)
    requires compile(".*").Ok?
    ensures r == Parse(compile, args)
  {
    var filter := compile(".*").value;
    var dir := ".";
    var cwd := ".";
    var command: seq<string> := [];
    var i := 0;
    while i < |args|
      invariant i <= |args|
      invariant Scan(compile, args, i, Config(filter, dir, cwd, command)) == Scan(compile, args, 0, Defaults(compile))
    {
      var arg := args[i];
      if HasPrefix(arg, "-f") {
        if i == |args| - 1 {
          return Err(MissingPattern);
        }
        var re := compile(args[i + 1]);
        if re.Err? {
          return Err(BadPattern(re.error));
        }
        filter := re.value;
        i := i + 1;
      } else if HasPrefix(arg, "-d") {
        if i == |args| - 1 {
          return Err(MissingWatchDir);
        }
        dir := args[i + 1];
        i := i + 1;
      } else if HasPrefix(arg, "-w") {
        if i == |args| - 1 {
          return Err(MissingCwd);
        }
        cwd := args[i + 1];
        i := i + 1;
      } else if arg == "--" {
        if i == |args| - 1 {
          return Err(MissingCommand);
        }
        i := i + 1;
        command := args[i..];
      }
      i := i + 1;
    }
    if |command| == 0 {
      return Err(Usage);
    }
    return Ok(Config(filter, dir, cwd, command));
  }

  // ---------------------------------------------------------------------------
  // Which positions the scanner looks at

  /** The positions the scanner examines, in order, starting at `i`. */
  function Visited(args: seq<string>, i: nat): (ps: seq<nat>)
    requires i <= |args|
    ensures forall k :: k in ps ==> i <= k < |args|
    ensures i < |args| ==> |ps| > 0 && ps[0] == i
    decreases |args| - i
  {
    if i == |args| then [] else [i] + Visited(args, Next(args, i))
  }

  /** The last position the scanner examines from `i` that holds an argument of kind `kind`. */
  function LastOf(args: seq<string>, i: nat, kind: Kind): Option<nat>
    requires i <= |args|
    decreases |args| - i
  {
    if i == |args| then None
    else
      match LastOf(args, Next(args, i), kind)
      case Some(k) => Some(k)
      case None => if KindOf(args[i]) == kind then Some(i) else None
  }

  /** `LastOf` finds a visited position of that kind after which no visited position has it, or says there is none. */
  lemma {:induction false} LastOfIsLast(args: seq<string>, i: nat, kind: Kind)
    requires i <= |args|
    ensures var r := LastOf(args, i, kind);
      && (r.None? <==> forall k :: k in Visited(args, i) ==> KindOf(args[k]) != kind)
      && (r.Some? ==> r.value in Visited(args, i) && KindOf(args[r.value]) == kind)
      && (r.Some? ==> forall k :: k in Visited(args, i) && k > r.value ==> KindOf(args[k]) != kind)
    decreases |args| - i
  {
    if i < |args| {
      assert Visited(args, i) == [i] + Visited(args, Next(args, i));
      LastOfIsLast(args, Next(args, i), kind);
    }
  }

  /**
   * The value a position `k` hands to the configuration is the argument right after it; a
   * value is consumed, never scanned. In particular the first word after `--` is never scanned.
   */
  lemma {:induction false} ValueNeverScanned(args: seq<string>, i: nat)
    requires i <= |args|
    ensures forall k :: k in Visited(args, i) && KindOf(args[k]) != Word ==> k + 1 !in Visited(args, i)
    decreases |args| - i
  {
    if i < |args| {
      var n := Next(args, i);
      ValueNeverScanned(args, n);
      assert Visited(args, i) == [i] + Visited(args, n);
    }
  }

  // ---------------------------------------------------------------------------
  // When the scan succeeds

  lemma {:induction false} ScanOkIff<R>(compile: string -> Result<R, string>, args: seq<string>, i: nat, c: Config<R>)
    requires i <= |args|
    ensures Scan(compile, args, i, c).Ok? <==> forall k :: k in Visited(args, i) ==> WellFormedAt(compile, args, k)
    decreases |args| - i
  {
    if i < |args| {
      var n := Next(args, i);
      assert Visited(args, i) == [i] + Visited(args, n);
      var v := Visit(compile, args, i, c);
      if v.Ok? {
        ScanOkIff(compile, args, n, v.value);
      }
    }
  }

  /** Configuration `c` holds, for each setting, the value of the last position in `ps` that sets it, or `init`'s. */
  ghost predicate TakesLastValues<R>(compile: string -> Result<R, string>, args: seq<string>, i: nat, init: Config<R>, c: Config<R>)
    requires i <= |args|
  {
    && (match LastOf(args, i, FilterFlag)
        case None => c.filter == init.filter
        case Some(k) => k + 1 < |args| && compile(args[k + 1]) == Ok(c.filter))
    && (match LastOf(args, i, DirFlag)
        case None => c.dir == init.dir
        case Some(k) => k + 1 < |args| && c.dir == args[k + 1])
    && (match LastOf(args, i, CwdFlag)
        case None => c.cwd == init.cwd
        case Some(k) => k + 1 < |args| && c.cwd == args[k + 1])
    && (match LastOf(args, i, Terminator)
        case None => c.command == init.command
        case Some(k) => k + 1 < |args| && c.command == args[k + 1..])
  }

  lemma {:induction false} ScanTakesLastValues<R>(compile: string -> Result<R, string>, args: seq<string>, i: nat, c0: Config<R>)
    requires i <= |args|
    requires Scan(compile, args, i, c0).Ok?
    ensures TakesLastValues(compile, args, i, c0, Scan(compile, args, i, c0).value)
    decreases |args| - i
  {
    if i < |args| {
      var n := Next(args, i);
      var c1 := Visit(compile, args, i, c0).value;
      ScanTakesLastValues(compile, args, n, c1);
    }
  }

  /**
   * The parse succeeds exactly when every position the scanner looks at is
   * acceptable and one of them is `--`.
   */
  lemma ParseOkIff<R>(compile: string -> Result<R, string>, args: seq<string>)
    requires compile(".*").Ok?
    ensures Parse(compile, args).Ok? <==>
      (forall k :: k in Visited(args, 0) ==> WellFormedAt(compile, args, k)) &&
      (exists k :: k in Visited(args, 0) && KindOf(args[k]) == Terminator)
  {
    var d := Defaults(compile);
    ScanOkIff(compile, args, 0, d);
    LastOfIsLast(args, 0, Terminator);
    if Scan(compile, args, 0, d).Ok? {
      ScanTakesLastValues(compile, args, 0, d);
    }
  }

  /**
   * On success each setting holds the value after the last flag of its kind
   * that the scanner visits, or its default when there is none, and the
   * command is the whole suffix after the last `--` visited.
   */
  lemma ParseTakesLastValues<R>(compile: string -> Result<R, string>, args: seq<string>)
    requires compile(".*").Ok?
    requires Parse(compile, args).Ok?
    ensures TakesLastValues(compile, args, 0, Defaults(compile), Parse(compile, args).value)
    ensures LastOf(args, 0, Terminator).Some? && Parse(compile, args).value.command != []
  {
    var d := Defaults(compile);
    ScanTakesLastValues(compile, args, 0, d);
  }

  // ---------------------------------------------------------------------------
  // When the scan fails

  lemma {:induction false} ScanDangling<R>(compile: string -> Result<R, string>, args: seq<string>, i: nat, c: Config<R>)
    requires i <= |args| && |args| > 0
    requires |args| - 1 in Visited(args, i) && KindOf(args[|args| - 1]) != Word
    ensures Scan(compile, args, i, c).Err?
    ensures Scan(compile, args, i, c).error == MissingFor(KindOf(args[|args| - 1])) ||
            Scan(compile, args, i, c).error.BadPattern?
    ensures (forall k :: k in Visited(args, i) && k < |args| - 1 ==> WellFormedAt(compile, args, k)) ==>
            Scan(compile, args, i, c).error == MissingFor(KindOf(args[|args| - 1]))
    decreases |args| - i
  {
    var n := Next(args, i);
    assert Visited(args, i) == [i] + Visited(args, n);
    var v := Visit(compile, args, i, c);
    if v.Ok? {
      ScanDangling(compile, args, n, v.value);
    }
  }

  /**
   * A flag or `--` that the scanner reaches as the last argument makes the
   * parse fail: with its own "Expected ..." error, unless a pattern given
   * earlier already failed to compile.
   */
  lemma DanglingFlagFails<R>(compile: string -> Result<R, string>, args: seq<string>)
    requires compile(".*").Ok?
    requires |args| > 0 && |args| - 1 in Visited(args, 0) && KindOf(args[|args| - 1]) != Word
    ensures Parse(compile, args).Err?
    ensures Parse(compile, args).error == MissingFor(KindOf(args[|args| - 1])) ||
            Parse(compile, args).error.BadPattern?
    ensures (forall k :: k in Visited(args, 0) && k < |args| - 1 ==> WellFormedAt(compile, args, k)) ==>
            Parse(compile, args).error == MissingFor(KindOf(args[|args| - 1]))
  {
    ScanDangling(compile, args, 0, Defaults(compile));
  }

  /**
   * Without a visited `--` there is no command: the parse fails, and with the
   * usage message when nothing else went wrong first.
   */
  lemma NoCommandWithoutTerminator<R>(compile: string -> Result<R, string>, args: seq<string>)
    requires compile(".*").Ok?
    requires forall k :: k in Visited(args, 0) ==> KindOf(args[k]) != Terminator
    ensures Parse(compile, args).Err?
    ensures (forall k :: k in Visited(args, 0) ==> WellFormedAt(compile, args, k)) <==> Parse(compile, args) == Err(Usage)
  {
    var d := Defaults(compile);
    ScanOkIff(compile, args, 0, d);
    LastOfIsLast(args, 0, Terminator);
    if Scan(compile, args, 0, d).Ok? {
      ScanTakesLastValues(compile, args, 0, d);
    }
  }

  // ---------------------------------------------------------------------------
  // Worked invocations

  /** The invocation from the usage line, with every option given once. */
  lemma FullInvocation<R>(compile: string -> Result<R, string>, pattern: string)
    requires compile(".*").Ok? && compile(pattern).Ok?
    ensures Parse(compile, ["pacz", "-f", pattern, "-d", "./src", "-w", "./build", "--", "go", "run", "main.go"]) ==
            Ok(Config(compile(pattern).value, "./src", "./build", ["go", "run", "main.go"]))
  {
    var args := ["pacz", "-f", pattern, "-d", "./src", "-w", "./build", "--", "go", "run", "main.go"];
    var d := Defaults(compile);
    var c1 := d.(filter := compile(pattern).value);
    var c2 := c1.(dir := "./src");
    var c3 := c2.(cwd := "./build");
    var c4 := c3.(command := ["go", "run", "main.go"]);
    assert Scan(compile, args, 0, d) == Scan(compile, args, 1, d);
    assert Scan(compile, args, 1, d) == Scan(compile, args, 3, c1);
    assert Scan(compile, args, 3, c1) == Scan(compile, args, 5, c2);
    assert Scan(compile, args, 5, c2) == Scan(compile, args, 7, c3);
    assert args[8..] == ["go", "run", "main.go"];
    assert Scan(compile, args, 7, c3) == Scan(compile, args, 9, c4);
    assert Scan(compile, args, 9, c4) == Scan(compile, args, 10, c4);
    assert Scan(compile, args, 10, c4) == Scan(compile, args, 11, c4);
  }

  /** Words of the command after its first are still scanned: `-d` inside the command changes the watched directory. */
  lemma FlagInsideCommand<R>(compile: string -> Result<R, string>)
    requires compile(".*").Ok?
    ensures Parse(compile, ["pacz", "--", "ls", "-d", "/tmp"]) ==
            Ok(Config(compile(".*").value, "/tmp", ".", ["ls", "-d", "/tmp"]))
    ensures Parse(compile, ["pacz", "--", "-d", "/tmp"]) ==
            Ok(Config(compile(".*").value, ".", ".", ["-d", "/tmp"]))
    ensures Parse(compile, ["pacz", "--", "a", "--", "b"]) ==
            Ok(Config(compile(".*").value, ".", ".", ["b"]))
  {
  }

  /** A value is never read as a flag: `-d --` watches the directory `--` and gives no command. */
  lemma ValueIsNotAFlag<R>(compile: string -> Result<R, string>)
    requires compile(".*").Ok?
    ensures Parse(compile, ["pacz", "-d", "--"]) == Err(Usage)
    ensures Parse(compile, ["pacz", "-d", "--", "--", "x"]) == Ok(Config(compile(".*").value, "--", ".", ["x"]))
  {
  }
}
