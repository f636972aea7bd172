# MikuShell command pipeline in Dafny

This project models the command pipeline of MikuShell, a small interactive
shell written in Python. The repository carries two near-identical copies of
it, `mikush_shell.py` and `mikush.py`. Each command line goes through these
steps:

1. **Blank-line check.** A blank line is ignored.
2. **Alias substitution.** The first token is replaced once, from the alias table.
3. **Redirection scan.** `handle_redirection` removes the `>`, `>>`, `<` and `2>` operators and their targets.
4. **Dispatch.** The command goes to a builtin or to an external program. The exit code is recorded in `last_exit_code`.
5. **Glob expansion.** External commands only.

The model also covers the helpers the pipeline and the builtins use:

- the file-icon classification of both copies;
- the home-to-`~` path display of `mikush.py`;
- the history window;
- the argument logic of `export`, `unset`, `alias`, `which`, `exit` and `ls`.

Modules:

- `Text` (text.dfy): the Python string operations the code relies on. These are `str.isspace`, `strip`, `replace(old, new, 1)`, `split('=', 1)`, an ASCII-only `str.isdigit`, `int()`, `str()` and ASCII `lower`.
- `Redirection` (redirection.dfy): the token scanner.
  - `HandleRedirection` is the index loop of the source.
  - It is proved equal to the specification `Extract`. `Extract` reads the tokens as a sequence of segments: a word, or an operator with its target.
- `Globbing` (globbing.dfy): glob pass-through. `ExpandGlobs` is the loop of the source, proved equal to `ExpandAll`.
- `Aliasing` (aliasing.dfy): the one-level alias lookup and the `alias` builtin's table updates.
- `Builtins` (builtins.dfy): the two builtin tables and the argument logic of the other builtins.
  - Specification functions: `ExportSpec`, `UnsetSpec`, `WhichReports`, `ExitRequest`, `HistoryStart`.
  - Loop methods: `HistoryListing`, and `SelectLsTarget` for `ls` in mikush.py.
- `Icons` (icons.dfy): `get_file_icon` of both copies.
- `PathDisplay` (pathdisplay.dfy): `get_current_path_display`.
- `Pipeline` (pipeline.dfy): `execute_command` as a function. `ExecAsWritten` uses the abort test as the source writes it; `Exec` uses the corrected test (see "## Findings"), and the rest of the model builds on `Exec`.
  - Inputs: the copy (`Variant`), the session state (aliases, environment, last exit code), a `World` and the line.
  - Result: the new state and an `Effect` saying what the call did.
- `Shell` (shell.dfy): the class `MikuShell`.
  - Its fields are updated in place by `ExecuteCommand` and by the `export`, `unset` and `alias` loops.
  - Each method is proved against the specification functions above; `ExecuteCommand` is proved against `Exec`, so it follows the corrected abort test.

The OS is a `World` of outcome oracles:

- `split` stands for `shlex.split`; `None` means it raised.
- `expand` stands for `expand_path` under a given environment, since `expandvars` reads `$VAR` from it. The pipeline passes the session's environment.
- `open` says whether opening a file succeeds or raises `FileNotFoundError`, `PermissionError` or another `OSError`.
- `glob` is the filesystem lookup for a pattern.
- `run` stands for `subprocess.run`. It receives the argument list, the redirect targets and the environment the child inherits, and returns `Exited(code)`, `NotFound` or `OtherError`.
- `builtinRaises` says whether a builtin whose work is on the filesystem raises.
- `listdirFails` says whether `os.listdir` raises for the `ls` of mikush.py.
- `lookup` is the external `which` program.

## Model

| member | source | states |
|---|---|---|
| Redirection.OpOf | mikush_shell.py:380-409 | the four operator tokens are recognised and nothing else is; each token maps back to its operator |
| Redirection.HandleRedirection | mikush_shell.py:367-413 | the index loop returns exactly the extraction the segment specification gives: the error on a trailing operator, otherwise the clean arguments and the last target per slot with the sticky append flag |
| Redirection.ExtractKeepsOrder | mikush_shell.py:374-413 | on success the clean arguments are the non-operator tokens in their original order; none is an operator; their number is `len(args) - 2 * operators` |
| Redirection.SegmentFlattens | mikush_shell.py:374-413 | a successful scan covers every token: laying the segments end to end gives the input back |
| Redirection.SegmentOfFlatten | mikush_shell.py:374-413 | the inverse direction: scanning segments laid end to end gives the same segments |
| Redirection.MissingIffTrailingOperator | mikush_shell.py:380-408 | the scan fails exactly when the last token is an operator after a prefix that scans, and the failure names that operator |
| Redirection.LastTargetWins | mikush_shell.py:380-405 | for each slot the target kept is the one given with the last operator for that slot |
| Redirection.UnfilledSlotKept | mikush_shell.py:369-371 | a slot that no operator fills keeps its initial `None` |
| Redirection.AppendSticky | mikush_shell.py:372-391 | `append_mode` holds exactly when some `>>` was seen, even if a later `>` replaced its target |
| Redirection.PlainTokensPassThrough | mikush_shell.py:409-413 | a token list without operators comes back unchanged, with no redirection |
| Redirection.FlattenLength | mikush_shell.py:374-413 | each operator segment covers two tokens and each word one |
| Redirection.WordsNotOperators | mikush_shell.py:409-411 | no clean argument of a scanned line is an operator token |
| Redirection.Extract | mikush_shell.py:367-413 | the error tuple comes only from an operator as the last token; on success the clean arguments are no more than the tokens and contain no operator |
| Globbing.Sort | mikush_shell.py:474-475 | `sorted(matches)`: the result is in Python string order and a permutation of the matches |
| Globbing.ExpandArgMeaning | mikush_shell.py:470-479 | an argument without `* ? [ ]` is kept; a pattern with matches becomes exactly its matches, sorted; a pattern without matches is kept literally |
| Globbing.ExpandGlobs | mikush_shell.py:469-479 | the loop builds exactly `ExpandAll` of the clean arguments |
| Globbing.ExpandAllAppend | mikush.py:551-561 | expansion works argument by argument and splits wherever the argument list does |
| Globbing.ExpandedInPlace | mikush.py:551-561 | the expansion of argument k sits in place, between those of the arguments before and after it |
| Globbing.PlainArgsUnchanged | mikush.py:551-561 | arguments without wildcards reach the program unchanged, whatever the filesystem holds |
| Globbing.ExpansionNeverShrinks | mikush.py:551-561 | no argument disappears: the expanded list is at least as long as the clean arguments |
| Globbing.StrLeTotal | mikush_shell.py:474-475 | the string order `sorted` uses is total |
| Globbing.StrLeTrans | mikush_shell.py:474-475 | the string order `sorted` uses is transitive |
| Aliasing.OnlyFirstTokenLookedUp | mikush_shell.py:421-424 | only the alias entry of the first token matters, so there is no second lookup |
| Aliasing.AliasReplacesLeadingWord | mikush_shell.py:422-424 | when the line starts with the aliased word, the alias text takes its place and the line is split again |
| Aliasing.NoAliasKeepsTokens | mikush.py:484-487 | a first token that is no alias keeps the tokens of the first split |
| Aliasing.ResolveAlias | mikush.py:483-487 | re-splitting can fail only when the first token is an alias; without an alias the first split's tokens are kept |
| Aliasing.AliasSpec | mikush.py:759-771 | `alias` never removes an entry: every name in the table before is in it after |
| Aliasing.StripQuotes | mikush.py:767-768 | `strip('\'"')` removes exactly the leading and the trailing run of quote characters: the result is the slice between them and neither starts nor ends with a quote; an all-quote command becomes empty |
| Aliasing.StripQuotesIdempotent | mikush.py:767-768 | stripping an already stripped command changes nothing |
| Aliasing.BareNamesKeepTable | mikush.py:769-771 | bare names only print and never modify the table |
| Aliasing.UndefinedNamesKept | mikush.py:765-768 | names that no argument defines keep their entry, or stay absent |
| Aliasing.LastDefinitionWins | mikush.py:765-768 | after `name=cmd`, later arguments that do not redefine the name leave it at `cmd` with its quotes stripped |
| Builtins.TablesDiffer | mikush_shell.py:146-165 | the 12 builtins of mikush.py (mikush.py:264-277) are a proper subset of the 18 of mikush_shell.py; the difference is the six file commands |
| Builtins.ExportRaisesIffMalformed | mikush.py:743-751 | `export` raises exactly when some argument has no `=`, or names a pair `os.environ` refuses: an empty name or a NUL character |
| Builtins.ExportStopsAtFirstMalformed | mikush.py:745-751 | on the first bad argument, exactly the pairs before it have been applied |
| Builtins.ExportKeepsEqualsInValue | mikush.py:747-748 | `KEY=a=b` with a non-empty, NUL-free name sets `KEY` to `a=b`: only the first `=` separates |
| Builtins.ExportEmptyNameRaises | mikush.py:747-748 | `export =x` raises at the assignment and sets nothing |
| Builtins.ExportSpec | mikush_shell.py:762-770 | every variable `export` adds has a non-empty, NUL-free name |
| Builtins.ExportKeepsNames | mikush.py:743-751 | `export` never removes a variable |
| Builtins.UnsetRemovesNamed | mikush.py:753-757 | `unset` removes exactly the named variables and silently ignores names that are not set |
| Builtins.UnsetSpec | mikush_shell.py:772-776 | after `unset` no named variable is set, no variable is added, and the ones kept keep their values |
| Builtins.WhichBuiltinsSkipLookup | mikush.py:773-777 | names in the builtin table are reported as builtins without any path search |
| Builtins.WhichAsksOnlyNonBuiltins | mikush_shell.py:792-802 | in any mix of names, only those outside the builtin table reach the path search |
| Builtins.WhichReports | mikush_shell.py:792-802 | one report per argument unless the lookup raised, never more |
| Builtins.MissingOperands | mikush_shell.py:658-749 | only the six file builtins of mikush_shell.py check operands, and they raise only with fewer than two arguments |
| Builtins.ExitRequest | mikush_shell.py:615-626 | with no argument the shell exits with status 0 |
| Builtins.ExitWithNumber | mikush_shell.py:618-626 | `exit n` calls `sys.exit(n)` (raising `SystemExit(n)`) for every integer n written in decimal |
| Builtins.ExitNonNumeric | mikush_shell.py:621-623 | an argument without digits does not exit |
| Builtins.HistoryStart | mikush.py:728 | the start index is `max(1, len - 100)` with no argument, `max(1, len - n)` for a digit string n, and 1 otherwise; it is never below 1 |
| Builtins.NumberedMeaning | mikush.py:725-733 | the listing numbers each shown item by its history index, skips empty entries and stays within the window |
| Builtins.HistoryListing | mikush_shell.py:628-636 | the loop lists the window `HistoryStart .. len` |
| Builtins.Without | mikush.py:633-635 | dropping `--nya` keeps every other argument, no `--nya`, and is never longer than the input |
| Builtins.WithoutAppend | mikush.py:633-635 | the filter distributes over concatenation, so the kept arguments keep their order and number |
| Builtins.SelectLsTarget | mikush.py:633-645 | nya mode iff `--nya` is given; the target is the last non-option argument (`.` if none); the options keep their order |
| Builtins.LsTargetIsOperand | mikush.py:637-645 | the `ls` target is `.` or an argument that is neither an option nor `--nya` |
| Builtins.LsTargetIsLast | mikush.py:637-645 | an operand after all the others becomes the target: the last operand wins |
| Builtins.OperandsAreArgs | mikush.py:641-645 | every operand is an argument that does not start with `-` |
| Icons.SplitExt | mikush_shell.py:225 | `os.path.splitext`: the parts rejoin to the path; the extension is non-empty exactly when the last dot lies in the last component after a non-dot character there, and it is then the text from that dot on |
| Icons.ShellIcon | mikush_shell.py:219-304 | every icon is one character, and the folder icon is returned exactly for directories |
| Icons.ShellIconIgnoresCase | mikush_shell.py:225-226 | classification in mikush_shell.py ignores ASCII case |
| Icons.LicenseAnywhere | mikush_shell.py:229-230 | any name containing `license` gets the license icon |
| Icons.ExtensionDecides | mikush_shell.py:224-304 | a name that no special rule claims is classified by its `splitext` extension, or gets the file icon |
| Icons.DotfileHasNoExtension | mikush_shell.py:225 | `.py` has no extension for `splitext`, so it gets the plain file icon |
| Icons.LastExt | mikush.py:411-412 | `'.' + split('.')[-1].lower()` exists exactly when the name has a dot, and is `.` followed by the lowered text after the last dot |
| Icons.TableIconAsWritten | mikush.py:400-424 | as written: a directory is a folder, an exact lowercase name wins, and a name with neither an entry nor a dot gets the default |
| Icons.TableIconAsWrittenOrder | mikush.py:410-424 | as written, a name without an exact entry gets the entry of `'.'` plus its lowered last dot-component, or the default when that has none |
| Icons.CompoundBranchesUnreachable | mikush.py:410-422 | as written, a name ending in `.tar.gz` or `.tar.xz` always gets the icon of its last extension |
| Icons.PackageArchiveAsWritten | mikush.py:420-422 | as written, a package archive gets the icon of `.xz`, not its own entry |
| Icons.PackageArchiveExample | mikush.py:125-129 | with the shipped table, `foo.pkg.tar.xz` gets the archive icon although `.pkg.tar.xz` maps to the package icon |
| Icons.JsonIconAsWritten | mikush.py:151 | as written, the `.json` icon is two characters long |
| Icons.CompoundExt | mikush.py:416-422 | corrected version: the compound suffix found ends the name, there is none exactly when the name ends in neither `.tar.gz` nor `.tar.xz`, and a `.pkg.tar.xz` name gives the longest, `.pkg.tar.xz` |
| Icons.PackageArchiveFixed | mikush.py:416-422 | corrected version: with compound suffixes checked first, every package archive gets its own entry |
| Icons.FixAgreesElsewhere | mikush.py:400-424 | the corrected lookup order agrees with the source's for names without a compound suffix |
| Icons.OneCharIcons | mikush.py:48-203 | every icon of the corrected table is a single character |
| Icons.JsonIconFixed | mikush.py:151 | corrected version: with the corrected table, `data.json` gets the single code point U+F0626 |
| Icons.TableIconOrder | mikush.py:400-424 | lookup order of the corrected version: a directory is a folder; then the exact lowercase name; then the longest compound suffix (package icon for `.pkg.tar.xz`, archive icon otherwise); then `.` plus the lowered last dot-component; then the default |
| Icons.DotfileIconsDiffer | mikush.py:405-408 | the copies disagree on `.py`: mikush.py as written, with its shipped table, shows the Python icon through the exact-name lookup; mikush_shell.py (mikush_shell.py:225) shows a plain file |
| PathDisplay.DisplayAsWritten | mikush.py:347-354 | a cwd starting with home is shown as `~` followed by the rest; any other cwd is shown unchanged |
| PathDisplay.SiblingOfHomeAsWritten | mikush.py:351-353 | `/home/alice` with home `/home/al` is shown as `~ice`, which does not read back |
| PathDisplay.Display | mikush.py:351-353 | the component-aware display abbreviates exactly the paths at or below home |
| PathDisplay.DisplayRoundTrip | mikush.py:347-354 | every absolute cwd reads back from its corrected display |
| PathDisplay.DisplayAgreesOnComponents | mikush.py:351-353 | the correction changes only the garbled case |
| Pipeline.Lex | mikush_shell.py:417-424 | a failed lex is a `shlex` error or an empty token list, both escaping `execute_command` |
| Pipeline.Tuple | mikush_shell.py:386-413 | the five-tuple has no clean arguments exactly on error; its last element is `True` on error and is `append_mode` on success |
| Pipeline.FirstOpenFailure | mikush_shell.py:459-467 | no failure exactly when every given file opens; a reported stream is given, failed with that result, and every stream opened before it (stdin, then stdout in append or truncate mode, then stderr) opened |
| Pipeline.OpenFailureCode | mikush.py:522-549 | a redirect-open failure records 1 or 127 |
| Pipeline.RunBuiltin | mikush_shell.py:440-450 | a builtin never sets the exit code itself; only `export` and `unset` change the environment and only `alias` the alias table |
| Pipeline.Dispatch | mikush_shell.py:432-491 | an empty command does nothing; a builtin name always runs the builtin; a child runs only for a non-builtin, on the glob expansion, with the redirect targets and the session's environment |
| Pipeline.Exec | mikush_shell.py:415-530 | corrected version: escaping exceptions and ignored lines keep the state; an abort records 1 and always names the operator missing its target; a child inherits the session's environment |
| Pipeline.ExecAsWritten | mikush_shell.py:415-530 | as written: no external command ever runs with `>>` append mode, and a child inherits the session's environment |
| Pipeline.BlankLineIgnored | mikush_shell.py:417-418 | a blank line changes nothing |
| Pipeline.OnlyExitExits | mikush_shell.py:615-626 | only `exit` ends in `sys.exit`, and it changes no state |
| Pipeline.RecordedExitCode | mikush_shell.py:415-530 | escaping exceptions and ignored lines keep the state; an abort records 1; an open failure records the copy's code; an external run records the child's code (127 or 1 on failure); a builtin records 0 or 1 |
| Pipeline.OnlyTableBuiltinsChangeTables | mikush_shell.py:415-530 | the environment changes only through `export` and `unset`, the alias table only through `alias` |
| Pipeline.AbortIffTrailingOperator | mikush_shell.py:427-430 | with the intended test a line aborts (records 1, dispatches nothing) exactly when its last token is an operator |
| Pipeline.ScannedLinesDispatched | mikush_shell.py:432-440 | with the intended test every scanned line is dispatched with its targets |
| Pipeline.AppendAbortsAsWritten | mikush_shell.py:428 | as written, every scanned line with `>>` records 1 and runs nothing |
| Pipeline.AsWrittenDiffersOnlyOnAppend | mikush.py:491 | the written test and the intended one disagree only on scanned lines with `>>` |
| Pipeline.AppendExampleAsWritten | mikush_shell.py:427-430 | as written, `date >> log.txt` records 1 |
| Pipeline.AppendExampleFixed | mikush_shell.py:462-484 | with the intended test, `date >> log.txt` opens the file in append mode and runs `date` |
| Pipeline.BuiltinsBypassGlobsAndRedirects | mikush_shell.py:440-450 | a builtin gets the unglobbed arguments after its name; its outcome does not depend on `open`, `glob` or `run` |
| Pipeline.ExternalRunsExpandedArgs | mikush_shell.py:469-491 | an external command runs the glob expansion of its clean arguments and records the child's code |
| Pipeline.MissingStdinCodes | mikush.py:522-532 | a missing stdin file records 1 in mikush.py; in mikush_shell.py (mikush_shell.py:460,500-525) it records 127 |
| Pipeline.OutputFailureCodes | mikush.py:534-541 | an output file that cannot be opened records 127 when it does not exist and 1 otherwise |
| Pipeline.CatWithoutOperand | mikush_shell.py:658-662 | `cat` without an operand is a builtin that raises (1) in mikush_shell.py; in mikush.py it runs the external `cat` |
| Pipeline.ExitNonNumericRecordsZero | mikush_shell.py:619-623 | `exit abc` returns normally: it records 0 and the shell goes on |
| Pipeline.ExitWithCodeEscapes | mikush_shell.py:618-626 | `exit n` leaves with status n and records nothing |
| Pipeline.ExportInPipeline | mikush_shell.py:762-770 | `export` through the pipeline keeps the pairs applied before the first bad one and records 1 exactly when there is one |
| Pipeline.ExportReachesChild | mikush_shell.py:762-770 | `export K=v` records 0 and sets K to v, and any child the next line runs (mikush_shell.py:481) sees K = v |
| Pipeline.UnsetHidesFromChild | mikush_shell.py:772-776 | `unset K` records 0 and removes K, and no child the next line runs sees K |
| Shell.MikuShell.constructor | mikush_shell.py:166-167 | a new shell has no aliases and exit code 0 |
| Shell.MikuShell.Export | mikush_shell.py:762-770 | the loop leaves the environment and the raise flag of `ExportSpec` (stopping at a missing `=`, an empty name or a NUL) and changes nothing else |
| Shell.MikuShell.Unset | mikush_shell.py:772-776 | the loop leaves the environment of `UnsetSpec` and changes nothing else |
| Shell.MikuShell.Alias | mikush_shell.py:778-790 | the loop leaves the table of `AliasSpec` and changes nothing else |
| Shell.MikuShell.CallBuiltin | mikush_shell.py:440-450 | a builtin call leaves the state and ending that `RunBuiltin` specifies |
| Shell.MikuShell.ExecuteCommand | mikush_shell.py:415-530 | corrected version: the new state and the effect are those of `Pipeline.Exec`, which uses the corrected abort test of "## Findings" |

## Left out

- The printing, the colours and the messages.
- The prompt (`show_prompt`), the `input()` loop, readline history files, SIGINT handling and the CLI entry points. These are session plumbing around `execute_command`.
- Loading the rc file. The constructor models the state before it runs; each rc line is an ordinary `execute_command` call.
- The thefuck correction after `FileNotFoundError` (mikush_shell.py:500-524). It is interactive: it asks the user and may run a suggested command recursively. The model takes the path where no correction is executed, which records 127.
- `shlex.split`, `expand_path`, `open`, `glob.glob`, `subprocess.run`, `os.listdir` and the `which` program. These are oracles of a `World`. The world is one fixed value per call: a file created by an earlier open is not seen by a later one.
- The filesystem work of `cd`, `ls`, `pwd`, `clear`, `help`, `echo`, `cat`, `mkdir`, `rmdir`, `rm`, `cp` and `mv`. Only whether they raise is modelled (`builtinRaises`), plus the operand checks that raise before any work.
- HistoryStart: `IsDigits` is ASCII-only. For an argument of non-ASCII digits such as `٣`, Python's `isdigit` and `int` both accept it and the window starts at `max(1, len - 3)`; the model starts it at 1. Only the printed window is affected.
- Pipeline.RunBuiltin: `history` is taken to return normally. That holds for ASCII digit strings. It does not hold for non-ASCII digits, which `str.isdigit` accepts and `int` may reject.
- Text.ParseInt: accepts surrounding whitespace, a sign and ASCII digits. It does not accept the underscores or the non-ASCII digits that Python's `int` allows.
- Text.Lower: is ASCII-only. Python's `str.lower` also folds non-ASCII letters.
- Builtins.HistoryListing: models the numbering of the readline items. The items themselves come from readline and are a parameter.
- Shell.MikuShell.ExecuteCommand: follows the corrected abort test. On a scanned line with `>>` it opens the target and runs the command, where both copies of the source record 1 and run nothing; `Pipeline.ExecAsWritten` and `Pipeline.AppendAbortsAsWritten` state the behaviour as written.
- The `which` lookup oracle does not receive the session's environment, so a `PATH` changed by `export` is not modelled for `which`; it is passed to `run` and `expand`.
- Builtins.ExitWithNumber: `sys.exit(n)` is modelled as the request for status n; the status the OS reports is n modulo 256.
- Closing the redirect file descriptors, and their leak when a later open fails. These have no effect on the state the model tracks.
- Icons: the colours and suffixes of `ls` listings are left out. Only the icon choice is modelled.

## Findings

| source | as written | input that shows it | evidently intended | confidence | as-written member | corrected member |
|---|---|---|---|---|---|---|
| mikush_shell.py:428 | `len(result) == 5 and result[4]` treats the last element of every tuple as an error flag; on success that element is `append_mode` (also mikush.py:491) | `date >> log.txt` records exit code 1 and runs nothing | abort only on the error tuple `(None, None, None, None, True)` | not executed; high | Pipeline.AppendAbortsAsWritten | Pipeline.AbortIffTrailingOperator |
| mikush.py:416-422 | the compound-suffix checks come after the last-extension lookup, which already matches `.gz` and `.xz` | `foo.pkg.tar.xz` gets the archive icon of `.xz` instead of the package icon | check `.pkg.tar.xz`, `.tar.gz` and `.tar.xz` before the last extension | not executed; high | Icons.PackageArchiveExample | Icons.PackageArchiveFixed |
| mikush.py:351-353 | `startswith(home)` is a plain string-prefix test | cwd `/home/alice` with home `/home/al` is displayed as `~ice` | abbreviate only when home is the cwd or a whole-component prefix of it | not executed; high | PathDisplay.SiblingOfHomeAsWritten | PathDisplay.DisplayRoundTrip |
| mikush.py:151 | `'\uf0626'` is the escape for U+F062 followed by the digit `6` | `data.json` gets a two-character icon | the single code point U+F0626 (written `'\U000f0626'`) | not executed; medium | Icons.JsonIconAsWritten | Icons.JsonIconFixed |
