/** `execute_command` of both copies of the shell (mikush_shell.py:415-530,
    mikush.py:478-612) as a function of the session state, the world and
    the command line: blank-line check, one-level alias substitution,
    redirection extraction, then builtin or external dispatch, with the exit
    code it records. The OS is a `World` of outcome oracles. */
module Pipeline {
  import opened Text
  import opened Redirection
  import opened Globbing
  import opened Aliasing
  import opened Builtins

  /** Which copy of the shell: mikush_shell.py or mikush.py. */
  datatype Variant = ShellPy | MikushPy

  function BuiltinNames(v: Variant): set<string> {
    match v
    case ShellPy => ShellBuiltins
    case MikushPy => MikushBuiltins
  }

  /** The session state `execute_command` reads and writes: the alias
      table, the process environment and `last_exit_code`. */
  datatype Session = Session(aliases: map<string, string>, env: map<string, string>, lastExitCode: int)

  datatype Mode = Read | Write | AppendMode

  /** What `open` does: succeed, raise `FileNotFoundError`, raise
      `PermissionError`, or raise another `OSError`. */
  datatype OpenResult = Opened | NoSuchFile | Denied | OtherOpenError

  /** What `subprocess.run` does: the child exits with a code, the program
      is not found, or another exception is raised. */
  datatype RunResult = Exited(code: int) | NotFound | OtherError

  /** The OS, as outcome oracles. `split` is `shlex.split` (`None`: it
      raised); `expand` is `expand_path` under the given environment (it
      interpolates `$VAR`); `run` is `subprocess.run` of an argument list
      with the redirect files and the environment the child inherits;
      `builtinRaises` says whether a builtin whose work is on the OS
      raises, `listdirFails` whether `os.listdir` raises for the `ls` of
      mikush.py, `lookup` is the external `which` lookup. */
  datatype World = World(
    split: string -> Option<seq<string>>,
    expand: (map<string, string>, string) -> string,
    open: (string, Mode) -> OpenResult,
    glob: string -> seq<string>,
    run: (seq<string>, Redirect, map<string, string>) -> RunResult,
    builtinRaises: (string, seq<string>) -> bool,
    listdirFails: string -> bool,
    lookup: string -> Lookup)

  /** `expand_path` as the session sees it: under its current environment. */
  function ExpandIn(w: World, env: map<string, string>): string -> string {
    t => w.expand(env, t)
  }

  /** How a builtin ended: it returned, it raised an `Exception`, or it
      called `sys.exit(code)`, whose `SystemExit` escapes `execute_command`. */
  datatype BuiltinResult = Returned | Raised | Exits(code: int)

  datatype Stream = StdinStream | StdoutStream | StderrStream

  /** What a call did. `SplitFailed` and `NoFirstToken` are exceptions that
      escape `execute_command` (a `shlex` error, `parts[0]` of an empty
      list). */
  datatype Effect =
    | Ignored
    | SplitFailed
    | NoFirstToken
    | Aborted(missing: Option<Op>)
    | RanBuiltin(name: string, args: seq<string>, ending: BuiltinResult)
    | OpenFailed(stream: Stream, failure: OpenResult)
    | RanExternal(argv: seq<string>, redirect: Redirect, env: map<string, string>, result: RunResult)

  // ---------------------------------------------------------------------
  // Up to the redirection

  datatype Lexed = NoCommand | LexFailed(effect: Effect) | Tokens(tokens: seq<string>)

  /** The blank-line check, `shlex.split` and the alias substitution. */
  function Lex(s: Session, w: World, line: string): (r: Lexed)
    ensures r.LexFailed? ==> r.effect == SplitFailed || r.effect == NoFirstToken
  {
    if Blank(line) then NoCommand
    else match w.split(line)
      case None => LexFailed(SplitFailed)
      case Some(parts) =>
        if parts == [] then LexFailed(NoFirstToken)
        else match ResolveAlias(line, parts, s.aliases, w.split)
          case None => LexFailed(SplitFailed)
          case Some(tokens) => Tokens(tokens)
  }

  /** The five-tuple `handle_redirection` returns. */
  datatype RedirTuple = RedirTuple(clean: Option<seq<string>>, stdin: Option<string>, stdout: Option<string>, stderr: Option<string>, last: bool)

  function Tuple(e: Extraction): (t: RedirTuple)
    ensures t.clean.None? <==> e.MissingTarget?
    ensures e.MissingTarget? ==> t.last
    ensures e.Extracted? ==>
      t.clean == Some(e.clean) && Redirect(t.stdin, t.stdout, t.stderr, t.last) == e.redirect
  {
    match e
    case MissingTarget(_) => RedirTuple(None, None, None, None, true)
    case Extracted(clean, r) => RedirTuple(Some(clean), r.stdin, r.stdout, r.stderr, r.append)
  }

  /** The error test as written, `len(result) == 5 and result[4]`: it reads
      the fifth element, which is `append_mode` on success. */
  predicate AbortsAsWritten(t: RedirTuple) {
    t.last
  }

  /** The error test as intended: the error tuple is the one without clean
      arguments. */
  predicate Aborts(t: RedirTuple) {
    t.clean.None?
  }

  // ---------------------------------------------------------------------
  // Dispatch

  /** A redirect target is used only when it is a non-empty string
      (`if stdin_file:`). */
  predicate Given(target: Option<string>) {
    target.Some? && target.value != ""
  }

  /** The mode stdout is opened in: `'a'` after `>>`, `'w'` otherwise. */
  function OutMode(r: Redirect): Mode {
    if r.append then AppendMode else Write
  }

  /** A target that is not given, or that opens. */
  predicate OpensOk(target: Option<string>, mode: Mode, open: (string, Mode) -> OpenResult) {
    !Given(target) || open(target.value, mode) == Opened
  }

  /** The first redirect file that fails to open, in the order the code
      opens them: stdin, stdout (append or truncate), stderr. There is none
      exactly when every given file opens, and a stream is reported only
      when every stream before it opened. */
  function FirstOpenFailure(r: Redirect, open: (string, Mode) -> OpenResult): (f: Option<(Stream, OpenResult)>)
    ensures f.None? <==> OpensOk(r.stdin, Read, open) && OpensOk(r.stdout, OutMode(r), open) && OpensOk(r.stderr, Write, open)
    ensures f.Some? ==> f.value.1 != Opened
    ensures f.Some? && f.value.0 == StdinStream ==> Given(r.stdin) && f.value.1 == open(r.stdin.value, Read)
    ensures f.Some? && f.value.0 == StdoutStream ==>
      OpensOk(r.stdin, Read, open) && Given(r.stdout) && f.value.1 == open(r.stdout.value, OutMode(r))
    ensures f.Some? && f.value.0 == StderrStream ==>
      OpensOk(r.stdin, Read, open) && OpensOk(r.stdout, OutMode(r), open) &&
      Given(r.stderr) && f.value.1 == open(r.stderr.value, Write)
  {
    if Given(r.stdin) && open(r.stdin.value, Read) != Opened then
      Some((StdinStream, open(r.stdin.value, Read)))
    else if Given(r.stdout) && open(r.stdout.value, OutMode(r)) != Opened then
      Some((StdoutStream, open(r.stdout.value, OutMode(r))))
    else if Given(r.stderr) && open(r.stderr.value, Write) != Opened then
      Some((StderrStream, open(r.stderr.value, Write)))
    else None
  }

  /** The exit code recorded when opening a redirect file fails.
      mikush_shell.py: `FileNotFoundError` reaches the handler that records
      127, anything else the one that records 1. mikush.py: every stdin
      failure records 1; for stdout and stderr only `PermissionError` is
      caught locally (1), `FileNotFoundError` reaches the outer handler
      (127) and the rest the generic one (1). */
  function OpenFailureCode(v: Variant, stream: Stream, failure: OpenResult): (code: int)
    ensures code == 1 || code == 127
  {
    match v
    case ShellPy => if failure == NoSuchFile then 127 else 1
    case MikushPy => if stream == StdinStream then 1 else if failure == NoSuchFile then 127 else 1
  }

  /** The exit code recorded for an external run. */
  function RunCode(res: RunResult): int {
    match res
    case Exited(code) => code
    case NotFound => 127
    case OtherError => 1
  }

  /** A builtin call: the new session state (only `export`, `unset` and
      `alias` change it) and how the builtin ended. */
  function RunBuiltin(v: Variant, s: Session, w: World, name: string, args: seq<string>): (r: (Session, BuiltinResult))
    ensures r.0.lastExitCode == s.lastExitCode
    ensures r.0.env != s.env ==> name in {"export", "unset"}
    ensures r.0.aliases != s.aliases ==> name == "alias"
  {
    if name == "export" then
      var (env, raised) := ExportSpec(s.env, args);
      (s.(env := env), if raised then Raised else Returned)
    else if name == "unset" then (s.(env := UnsetSpec(s.env, args)), Returned)
    else if name == "alias" then (s.(aliases := AliasSpec(s.aliases, args)), Returned)
    else if name == "which" then (s, if WhichReports(BuiltinNames(v), args, w.lookup).1 then Raised else Returned)
    else if name == "exit" then (s, match ExitRequest(args) case Some(code) => Exits(code) case None => Returned)
    else if name == "history" then (s, Returned)
    else if v == MikushPy && name == "ls" then (s, if w.listdirFails(LsTarget(args)) then Raised else Returned)
    else if v == ShellPy && MissingOperands(name, args) then (s, Raised)
    else (s, if w.builtinRaises(name, args) then Raised else Returned)
  }

  /** The code a builtin call records; `sys.exit` records nothing. */
  function BuiltinCode(s: Session, res: BuiltinResult): int {
    match res
    case Returned => 0
    case Raised => 1
    case Exits(_) => s.lastExitCode
  }

  /** An external command: open the redirect files, expand globs, run with
      the session's environment. */
  function External(v: Variant, s: Session, w: World, clean: seq<string>, r: Redirect): (Session, Effect) {
    match FirstOpenFailure(r, w.open)
    case Some((stream, failure)) => (s.(lastExitCode := OpenFailureCode(v, stream, failure)), OpenFailed(stream, failure))
    case None =>
      var argv := ExpandAll(clean, w.glob);
      var res := w.run(argv, r, s.env);
      (s.(lastExitCode := RunCode(res)), RanExternal(argv, r, s.env, res))
  }

  /** Everything after a successful redirection extraction: an empty
      command does nothing, a builtin never runs a child, and a child runs
      on the glob expansion of the arguments with the redirect targets and
      the session's environment. */
  function Dispatch(v: Variant, s: Session, w: World, clean: seq<string>, r: Redirect): (e: (Session, Effect))
    ensures clean == [] ==> e == (s, Ignored)
    ensures clean != [] && clean[0] in BuiltinNames(v) ==> e.1.RanBuiltin?
    ensures e.1.RanExternal? ==>
      clean != [] && clean[0] !in BuiltinNames(v) && e.1.argv == ExpandAll(clean, w.glob) &&
      e.1.redirect == r && e.1.env == s.env && e.0.env == s.env
  {
    if clean == [] then (s, Ignored)
    else if clean[0] in BuiltinNames(v) then
      var (s2, res) := RunBuiltin(v, s, w, clean[0], clean[1..]);
      (s2.(lastExitCode := BuiltinCode(s2, res)), RanBuiltin(clean[0], clean[1..], res))
    else External(v, s, w, clean, r)
  }

  /** `execute_command` with either error test. */
  function ExecUsing(v: Variant, s: Session, w: World, line: string, asWritten: bool): (Session, Effect) {
    match Lex(s, w, line)
    case NoCommand => (s, Ignored)
    case LexFailed(e) => (s, e)
    case Tokens(tokens) =>
      var e := Extract(tokens, ExpandIn(w, s.env));
      var t := Tuple(e);
      if (asWritten && AbortsAsWritten(t)) || (!asWritten && Aborts(t)) then
        (s.(lastExitCode := 1), Aborted(if e.MissingTarget? then Some(e.op) else None))
      else Dispatch(v, s, w, t.clean.value, Redirect(t.stdin, t.stdout, t.stderr, t.last))
  }

  /** `execute_command` as written: no command ever runs with `>>`, and an
      abort may name no missing operator. */
  function ExecAsWritten(v: Variant, s: Session, w: World, line: string): (r: (Session, Effect))
    ensures r.1.RanExternal? ==> !r.1.redirect.append && r.1.env == s.env
  {
    ExecUsing(v, s, w, line, true)
  }

  /** `execute_command` with the intended error test; the shell class is
      proved against this one. An escaping exception and an ignored line
      change nothing, an abort always names the operator whose target is
      missing, and a child inherits the session's environment. */
  function Exec(v: Variant, s: Session, w: World, line: string): (r: (Session, Effect))
    ensures Escapes(r.1) || r.1.Ignored? ==> r.0 == s
    ensures r.1.Aborted? ==> r.1.missing.Some? && r.0 == s.(lastExitCode := 1)
    ensures r.1.RanExternal? ==> r.1.env == s.env && r.0.env == s.env
  {
    ExecUsing(v, s, w, line, false)
  }

  // ---------------------------------------------------------------------
  // Properties

  /** A blank or whitespace-only line changes nothing. */
  lemma BlankLineIgnored(v: Variant, s: Session, w: World, line: string)
    requires Blank(line)
    ensures Exec(v, s, w, line) == (s, Ignored)
  {
  }

  /** The exceptions that escape `execute_command`: a `shlex` error, an
      empty token list, and the `SystemExit` of `exit`. */
  predicate Escapes(e: Effect) {
    e.SplitFailed? || e.NoFirstToken? || (e.RanBuiltin? && e.ending.Exits?)
  }

  /** Only `exit` ends in `sys.exit`, and it changes nothing. */
  lemma OnlyExitExits(v: Variant, s: Session, w: World, name: string, args: seq<string>)
    ensures RunBuiltin(v, s, w, name, args).1.Exits? ==>
      name == "exit" && RunBuiltin(v, s, w, name, args).0 == s
  {
  }

  /** The state after a call, by what the call did: an escaping exception
      and an ignored line leave everything as it was; otherwise the recorded
      exit code is 1 for an abort, the open-failure code of the variant,
      the child's code (127, 1) for an external run, and 0 or 1 for a
      builtin that returns or raises. */
  lemma RecordedExitCode(v: Variant, s: Session, w: World, line: string)
    ensures Escapes(Exec(v, s, w, line).1) || Exec(v, s, w, line).1.Ignored? ==> Exec(v, s, w, line).0 == s
    ensures Exec(v, s, w, line).1.Aborted? ==> Exec(v, s, w, line).0 == s.(lastExitCode := 1)
    ensures Exec(v, s, w, line).1.OpenFailed? ==>
      Exec(v, s, w, line).0 ==
      s.(lastExitCode := OpenFailureCode(v, Exec(v, s, w, line).1.stream, Exec(v, s, w, line).1.failure))
    ensures Exec(v, s, w, line).1.RanExternal? ==>
      Exec(v, s, w, line).0 == s.(lastExitCode := RunCode(Exec(v, s, w, line).1.result))
    ensures Exec(v, s, w, line).1.RanBuiltin? && Exec(v, s, w, line).1.ending.Returned? ==>
      Exec(v, s, w, line).0.lastExitCode == 0
    ensures Exec(v, s, w, line).1.RanBuiltin? && Exec(v, s, w, line).1.ending.Raised? ==>
      Exec(v, s, w, line).0.lastExitCode == 1
  {
    match Lex(s, w, line) {
      case NoCommand =>
      case LexFailed(_) =>
      case Tokens(tokens) =>
        var e := Extract(tokens, ExpandIn(w, s.env));
        if e.Extracted? && e.clean != [] && e.clean[0] in BuiltinNames(v) {
          OnlyExitExits(v, s, w, e.clean[0], e.clean[1..]);
        }
    }
  }

  /** Nothing else changes: the environment changes only through `export`
      and `unset`, the alias table only through `alias`. */
  lemma OnlyTableBuiltinsChangeTables(v: Variant, s: Session, w: World, line: string)
    ensures Exec(v, s, w, line).0.env != s.env ==>
      Exec(v, s, w, line).1.RanBuiltin? && Exec(v, s, w, line).1.name in {"export", "unset"}
    ensures Exec(v, s, w, line).0.aliases != s.aliases ==>
      Exec(v, s, w, line).1.RanBuiltin? && Exec(v, s, w, line).1.name == "alias"
  {
  }

  /** With the intended error test, a command aborts (exit code 1, nothing
      dispatched) exactly when its last token is an operator and the tokens
      before it scan; the abort names that operator. */
  lemma AbortIffTrailingOperator(v: Variant, s: Session, w: World, line: string, tokens: seq<string>, op: Op)
    requires Lex(s, w, line) == Tokens(tokens)
    ensures Exec(v, s, w, line) == (s.(lastExitCode := 1), Aborted(Some(op))) <==>
      (|tokens| > 0 && tokens[|tokens| - 1] == OpToken(op) && Segment(tokens[..|tokens| - 1]).Scanned?)
  {
    MissingIffTrailingOperator(tokens, op);
  }

  /** Every line that scans is dispatched, with the targets it names; the
      `>>` flag reaches the external run. */
  lemma ScannedLinesDispatched(v: Variant, s: Session, w: World, line: string, tokens: seq<string>)
    requires Lex(s, w, line) == Tokens(tokens) && Extract(tokens, ExpandIn(w, s.env)).Extracted?
    ensures Exec(v, s, w, line) ==
      Dispatch(v, s, w, Extract(tokens, ExpandIn(w, s.env)).clean, Extract(tokens, ExpandIn(w, s.env)).redirect)
  {
  }

  /** As written, every line with a `>>` operator, target given, is taken
      for the error tuple: it records 1 and runs nothing. */
  lemma AppendAbortsAsWritten(v: Variant, s: Session, w: World, line: string, tokens: seq<string>)
    requires Lex(s, w, line) == Tokens(tokens)
    requires Segment(tokens).Scanned? && HasAppend(Segment(tokens).segs)
    ensures ExecAsWritten(v, s, w, line) == (s.(lastExitCode := 1), Aborted(None))
  {
    AppendSticky(NoRedirect, Segment(tokens).segs, ExpandIn(w, s.env));
  }

  /** The two tests disagree only on lines that scan and carry `>>`. */
  lemma AsWrittenDiffersOnlyOnAppend(v: Variant, s: Session, w: World, line: string)
    ensures ExecAsWritten(v, s, w, line) != Exec(v, s, w, line) ==>
      Lex(s, w, line).Tokens? && Segment(Lex(s, w, line).tokens).Scanned? &&
      HasAppend(Segment(Lex(s, w, line).tokens).segs)
  {
    if Lex(s, w, line).Tokens? && Segment(Lex(s, w, line).tokens).Scanned? {
      AppendSticky(NoRedirect, Segment(Lex(s, w, line).tokens).segs, ExpandIn(w, s.env));
    }
  }

  lemma DateAppendScan(expand: string -> string)
    ensures Segment(["date", ">>", "log.txt"]) == Scanned([Word("date"), Pair(Append, "log.txt")])
    ensures Extract(["date", ">>", "log.txt"], expand) ==
      Extracted(["date"], Redirect(None, Some(expand("log.txt")), None, true))
  {
    var segs := [Word("date"), Pair(Append, "log.txt")];
    assert ["date", ">>", "log.txt"][1..] == [">>", "log.txt"];
    assert [">>", "log.txt"][2..] == [];
    assert segs[..1] == [Word("date")];
    assert segs[..1][..0] == [];
    assert Words(segs) == ["date"] by {
      assert Words(segs) == Words(segs[..1]);
      assert Words(segs[..1]) == Words([]) + ["date"];
    }
    assert ApplyAll(NoRedirect, segs, expand) == Redirect(None, Some(expand("log.txt")), None, true) by {
      assert ApplyAll(NoRedirect, segs[..1], expand) == Apply(ApplyAll(NoRedirect, [], expand), Word("date"), expand);
    }
  }

  lemma DateIsExternal(v: Variant, glob: string -> seq<string>)
    ensures "date" !in BuiltinNames(v)
    ensures ExpandAll(["date"], glob) == ["date"]
  {
    PlainArgsUnchanged(["date"], glob);
  }

  /** `date >> log.txt` as written: exit code 1 and no run. */
  lemma AppendExampleAsWritten(v: Variant, s: Session, w: World, line: string)
    requires Lex(s, w, line) == Tokens(["date", ">>", "log.txt"])
    ensures ExecAsWritten(v, s, w, line) == (s.(lastExitCode := 1), Aborted(None))
  {
    DateAppendScan(ExpandIn(w, s.env));
    var segs := [Word("date"), Pair(Append, "log.txt")];
    assert segs[1].Pair? && segs[1].op == Append;
    AppendAbortsAsWritten(v, s, w, line, ["date", ">>", "log.txt"]);
  }

  /** `date >> log.txt` with the intended test: `log.txt` is opened for
      appending and `date` runs with that target. */
  lemma AppendExampleFixed(v: Variant, s: Session, w: World, line: string)
    requires Lex(s, w, line) == Tokens(["date", ">>", "log.txt"])
    ensures w.open(w.expand(s.env, "log.txt"), AppendMode) == Opened ==>
      Exec(v, s, w, line).1 ==
      var r := Redirect(None, Some(w.expand(s.env, "log.txt")), None, true);
      RanExternal(["date"], r, s.env, w.run(["date"], r, s.env))
    ensures w.expand(s.env, "log.txt") != "" && w.open(w.expand(s.env, "log.txt"), AppendMode) != Opened ==>
      Exec(v, s, w, line).1 == OpenFailed(StdoutStream, w.open(w.expand(s.env, "log.txt"), AppendMode))
  {
    DateAppendScan(ExpandIn(w, s.env));
    DateIsExternal(v, w.glob);
    var r := Redirect(None, Some(w.expand(s.env, "log.txt")), None, true);
    ScannedLinesDispatched(v, s, w, line, ["date", ">>", "log.txt"]);
    assert Exec(v, s, w, line) == External(v, s, w, ["date"], r);
  }

  /** A builtin gets the clean arguments after its name, without glob
      expansion, and never opens the redirect files: its outcome is the same
      whatever `open`, `glob` and `run` do. */
  lemma BuiltinsBypassGlobsAndRedirects(v: Variant, s: Session, w: World, line: string, tokens: seq<string>,
                                        open2: (string, Mode) -> OpenResult, glob2: string -> seq<string>,
                                        run2: (seq<string>, Redirect, map<string, string>) -> RunResult)
    requires Lex(s, w, line) == Tokens(tokens) && Extract(tokens, ExpandIn(w, s.env)).Extracted?
    requires Extract(tokens, ExpandIn(w, s.env)).clean != [] && Extract(tokens, ExpandIn(w, s.env)).clean[0] in BuiltinNames(v)
    ensures Exec(v, s, w, line).1 == RanBuiltin(Extract(tokens, ExpandIn(w, s.env)).clean[0], Extract(tokens, ExpandIn(w, s.env)).clean[1..],
      RunBuiltin(v, s, w, Extract(tokens, ExpandIn(w, s.env)).clean[0], Extract(tokens, ExpandIn(w, s.env)).clean[1..]).1)
    ensures Exec(v, s, w, line) == Exec(v, s, w.(open := open2, glob := glob2, run := run2), line)
  {
    var w2 := w.(open := open2, glob := glob2, run := run2);
    assert Lex(s, w2, line) == Lex(s, w, line);
  }

  /** An external command runs the glob expansion of its clean arguments,
      which is never shorter than them, and records the child's code. */
  lemma ExternalRunsExpandedArgs(v: Variant, s: Session, w: World, line: string, tokens: seq<string>)
    requires Lex(s, w, line) == Tokens(tokens) && Extract(tokens, ExpandIn(w, s.env)).Extracted?
    requires Extract(tokens, ExpandIn(w, s.env)).clean != [] && Extract(tokens, ExpandIn(w, s.env)).clean[0] !in BuiltinNames(v)
    requires FirstOpenFailure(Extract(tokens, ExpandIn(w, s.env)).redirect, w.open) == None
    ensures Exec(v, s, w, line).1.RanExternal?
    ensures Exec(v, s, w, line).1.argv == ExpandAll(Extract(tokens, ExpandIn(w, s.env)).clean, w.glob)
    ensures |Exec(v, s, w, line).1.argv| >= |Extract(tokens, ExpandIn(w, s.env)).clean|
    ensures Exec(v, s, w, line).0 == s.(lastExitCode := RunCode(Exec(v, s, w, line).1.result))
  {
    ExpansionNeverShrinks(Extract(tokens, ExpandIn(w, s.env)).clean, w.glob);
  }

  /** A missing stdin file: 127 in mikush_shell.py (it reaches the
      `FileNotFoundError` handler), 1 in mikush.py (caught where it is
      opened); neither copy runs anything. */
  lemma MissingStdinCodes(s: Session, w: World, line: string, tokens: seq<string>)
    requires Lex(s, w, line) == Tokens(tokens) && Extract(tokens, ExpandIn(w, s.env)).Extracted?
    requires Extract(tokens, ExpandIn(w, s.env)).clean != [] && Extract(tokens, ExpandIn(w, s.env)).clean[0] !in ShellBuiltins
    requires Given(Extract(tokens, ExpandIn(w, s.env)).redirect.stdin)
    requires w.open(Extract(tokens, ExpandIn(w, s.env)).redirect.stdin.value, Read) == NoSuchFile
    ensures Exec(ShellPy, s, w, line) == (s.(lastExitCode := 127), OpenFailed(StdinStream, NoSuchFile))
    ensures Exec(MikushPy, s, w, line) == (s.(lastExitCode := 1), OpenFailed(StdinStream, NoSuchFile))
  {
    TablesDiffer();
  }

  /** An unwritable output file records 1 in both copies; a missing
      directory for it records 127 in both. */
  lemma OutputFailureCodes(v: Variant, s: Session, w: World, line: string, tokens: seq<string>)
    requires Lex(s, w, line) == Tokens(tokens) && Extract(tokens, ExpandIn(w, s.env)).Extracted?
    requires Extract(tokens, ExpandIn(w, s.env)).clean != [] && Extract(tokens, ExpandIn(w, s.env)).clean[0] !in BuiltinNames(v)
    requires !Given(Extract(tokens, ExpandIn(w, s.env)).redirect.stdin)
    requires Given(Extract(tokens, ExpandIn(w, s.env)).redirect.stdout)
    ensures Exec(v, s, w, line).1.OpenFailed? && Exec(v, s, w, line).1.stream == StdoutStream ==>
      Exec(v, s, w, line).0.lastExitCode == (if Exec(v, s, w, line).1.failure == NoSuchFile then 127 else 1)
  {
  }

  /** `cat` without an operand: a builtin that raises (1) in
      mikush_shell.py, the external program in mikush.py. */
  lemma CatWithoutOperand(s: Session, w: World, line: string)
    requires Lex(s, w, line) == Tokens(["cat"])
    ensures Exec(ShellPy, s, w, line) == (s.(lastExitCode := 1), RanBuiltin("cat", [], Raised))
    ensures Exec(MikushPy, s, w, line) ==
      (s.(lastExitCode := RunCode(w.run(["cat"], NoRedirect, s.env))),
       RanExternal(["cat"], NoRedirect, s.env, w.run(["cat"], NoRedirect, s.env)))
  {
    PlainTokensPassThrough(["cat"], ExpandIn(w, s.env));
    PlainArgsUnchanged(["cat"], w.glob);
    TablesDiffer();
    assert "cat" !in MikushBuiltins;
  }

  /** `exit` with a non-numeric argument prints a message and returns:
      exit code 0, the shell goes on. */
  lemma ExitNonNumericRecordsZero(v: Variant, s: Session, w: World, line: string, arg: string)
    requires Lex(s, w, line) == Tokens(["exit", arg])
    requires !IsOperator(arg) && forall i :: 0 <= i < |arg| ==> !IsDigit(arg[i])
    ensures Exec(v, s, w, line) == (s.(lastExitCode := 0), RanBuiltin("exit", [arg], Returned))
  {
    PlainTokensPassThrough(["exit", arg], ExpandIn(w, s.env));
    ExitNonNumeric(arg, []);
    assert [arg] + [] == [arg];
    assert ["exit", arg][1..] == [arg];
  }

  /** `exit n` leaves with status `n`, recording nothing. */
  lemma ExitWithCodeEscapes(v: Variant, s: Session, w: World, line: string, n: int)
    requires Lex(s, w, line) == Tokens(["exit", ShowInt(n)])
    ensures Exec(v, s, w, line) == (s, RanBuiltin("exit", [ShowInt(n)], Exits(n)))
  {
    NumberIsNoOperator(n);
    PlainTokensPassThrough(["exit", ShowInt(n)], ExpandIn(w, s.env));
    ExitWithNumber(n, []);
    assert [ShowInt(n)] + [] == [ShowInt(n)];
    assert ["exit", ShowInt(n)][1..] == [ShowInt(n)];
  }

  lemma NumberIsNoOperator(n: int)
    ensures !IsOperator(ShowInt(n))
  {
    var t := ShowInt(n);
    var digits := ShowNat(if n < 0 then -n else n);
    assert t[|t| - 1] == digits[|digits| - 1];
    assert IsDigit(t[|t| - 1]);
  }

  /** `export` in the pipeline: the pairs before the first bad argument
      stay applied, and the code is 1 exactly when there is one (no `=`, an
      empty name, a NUL character). */
  lemma ExportInPipeline(v: Variant, s: Session, w: World, line: string, tokens: seq<string>)
    requires Lex(s, w, line) == Tokens(tokens) && Extract(tokens, ExpandIn(w, s.env)).Extracted?
    requires Extract(tokens, ExpandIn(w, s.env)).clean != [] && Extract(tokens, ExpandIn(w, s.env)).clean[0] == "export"
    ensures Exec(v, s, w, line).0.env == ExportSpec(s.env, Extract(tokens, ExpandIn(w, s.env)).clean[1..]).0
    ensures Exec(v, s, w, line).0.lastExitCode ==
      (if exists k :: 0 <= k < |Extract(tokens, ExpandIn(w, s.env)).clean[1..]| && BadPair(Extract(tokens, ExpandIn(w, s.env)).clean[1..][k]) then 1 else 0)
  {
    ExportRaisesIffMalformed(s.env, Extract(tokens, ExpandIn(w, s.env)).clean[1..]);
  }

  /** A token holding `=` is no operator. */
  lemma PairIsNoOperator(key: string, value: string)
    ensures !IsOperator(key + "=" + value)
  {
    assert (key + "=" + value)[|key|] == '=';
  }

  /** `export KEY=value` records 0 and sets the variable, and every child the
      next line runs sees it. */
  lemma ExportReachesChild(v: Variant, s: Session, w: World, line: string, key: string, value: string, next: string)
    requires Lex(s, w, line) == Tokens(["export", key + "=" + value])
    requires '=' !in key && Settable(key, value)
    ensures Exec(v, s, w, line) ==
      (s.(env := s.env[key := value], lastExitCode := 0), RanBuiltin("export", [key + "=" + value], Returned))
    ensures var after := Exec(v, s, w, line).0;
      Exec(v, after, w, next).1.RanExternal? ==>
      key in Exec(v, after, w, next).1.env && Exec(v, after, w, next).1.env[key] == value
  {
    PairIsNoOperator(key, value);
    PlainTokensPassThrough(["export", key + "=" + value], ExpandIn(w, s.env));
    ExportKeepsEqualsInValue(s.env, key, value);
    assert ["export", key + "=" + value][1..] == [key + "=" + value];
  }

  /** `unset KEY` removes the variable, and no child the next line runs
      sees it. */
  lemma UnsetHidesFromChild(v: Variant, s: Session, w: World, line: string, key: string, next: string)
    requires Lex(s, w, line) == Tokens(["unset", key]) && !IsOperator(key)
    ensures Exec(v, s, w, line).0 == s.(env := s.env - {key}, lastExitCode := 0)
    ensures var after := Exec(v, s, w, line).0;
      Exec(v, after, w, next).1.RanExternal? ==> key !in Exec(v, after, w, next).1.env
  {
    PlainTokensPassThrough(["unset", key], ExpandIn(w, s.env));
    UnsetRemovesNamed(s.env, [key]);
    assert (set k | 0 <= k < |[key]| :: [key][k]) == {key};
    assert ["unset", key][1..] == [key];
  }
}
