/** The argument logic of the builtin commands: the two builtin tables,
    `export`, `unset`, `which`, `exit`, `history`, the operand checks of the
    file commands and the `ls` target selection. What the builtins do to the
    filesystem is not modelled here; the shell asks an outcome oracle. */
module Builtins {
  import opened Text

  type Env = map<string, string>

  /** The 18 names of the builtin table in mikush_shell.py. */
  const ShellBuiltins: set<string> :=
    {"cd", "ls", "pwd", "exit", "history", "clear", "help", "echo", "export",
     "unset", "alias", "which", "cat", "mkdir", "rmdir", "rm", "cp", "mv"}

  /** The 12 names of the builtin table in mikush.py. */
  const MikushBuiltins: set<string> :=
    {"cd", "ls", "pwd", "exit", "history", "clear", "help", "echo", "export",
     "unset", "alias", "which"}

  /** The file commands exist as builtins only in mikush_shell.py; in
      mikush.py the same names go to external programs. */
  lemma TablesDiffer()
    ensures ShellBuiltins - MikushBuiltins == {"cat", "mkdir", "rmdir", "rm", "cp", "mv"}
    ensures MikushBuiltins < ShellBuiltins
  {
  }

  // ---------------------------------------------------------------------
  // export / unset

  /** Whether `os.environ[key] = value` succeeds: `putenv` refuses an empty
      name, and a NUL character in the name or the value raises
      `ValueError`. (A name never contains `=`: the split is at the first
      one.) */
  predicate Settable(key: string, value: string) {
    key != "" && '\0' !in key && '\0' !in value
  }

  /** An argument `export` raises on: no `=` at all, or a pair the
      environment refuses. */
  predicate BadPair(arg: string) {
    match SplitFirst(arg, '=')
    case None => true
    case Some((key, value)) => !Settable(key, value)
  }

  /** The environment after `export args...`, and whether it raised: each
      `KEY=value` is applied in turn, split at the first `=`; the first
      argument without `=` raises `ValueError`, and the first pair the
      environment refuses raises in the assignment, with the earlier pairs
      already applied in both cases. */
  function ExportSpec(env: Env, args: seq<string>): (r: (Env, bool))
    ensures forall key :: key in r.0 && key !in env ==> key != "" && '\0' !in key
    decreases |args|
  {
    if args == [] then (env, false)
    else match SplitFirst(args[0], '=')
      case None => (env, true)
      case Some((key, value)) =>
        if !Settable(key, value) then (env, true)
        else ExportSpec(env[key := value], args[1..])
  }

  /** `export` raises exactly when some argument has no `=` or names a pair
      the environment refuses (an empty name, a NUL character). */
  lemma {:induction false} ExportRaisesIffMalformed(env: Env, args: seq<string>)
    ensures ExportSpec(env, args).1 <==> exists k :: 0 <= k < |args| && BadPair(args[k])
    decreases |args|
  {
    if args != [] && !BadPair(args[0]) {
      var (key, value) := SplitFirst(args[0], '=').value;
      ExportRaisesIffMalformed(env[key := value], args[1..]);
      if exists k :: 0 <= k < |args[1..]| && BadPair(args[1..][k]) {
        var k :| 0 <= k < |args[1..]| && BadPair(args[1..][k]);
        assert args[k + 1] == args[1..][k];
      }
      if exists k :: 0 <= k < |args| && BadPair(args[k]) {
        var k :| 0 <= k < |args| && BadPair(args[k]);
        assert k > 0;
        assert args[1..][k - 1] == args[k];
      }
    }
  }

  /** On the first bad argument, exactly the pairs before it have been
      applied. */
  lemma {:induction false} ExportStopsAtFirstMalformed(env: Env, args: seq<string>, k: nat)
    requires k < |args| && BadPair(args[k])
    requires forall j :: 0 <= j < k ==> !BadPair(args[j])
    ensures ExportSpec(env, args) == (ExportSpec(env, args[..k]).0, true)
    decreases k
  {
    if k > 0 {
      var (key, value) := SplitFirst(args[0], '=').value;
      assert args[1..][..k - 1] == args[..k][1..];
      ExportStopsAtFirstMalformed(env[key := value], args[1..], k - 1);
    }
  }

  /** A value may itself contain `=`: only the first one separates. */
  lemma ExportKeepsEqualsInValue(env: Env, key: string, value: string)
    requires '=' !in key && Settable(key, value)
    ensures ExportSpec(env, [key + "=" + value]) == (env[key := value], false)
  {
    assert key + "=" + value == key + ['='] + value;
    SplitFirstJoin(key, '=', value);
    assert [key + "=" + value][1..] == [];
  }

  /** `export =x` raises and sets nothing: the empty name is refused. */
  lemma ExportEmptyNameRaises(env: Env, value: string, rest: seq<string>)
    ensures ExportSpec(env, ["=" + value] + rest) == (env, true)
  {
    assert "=" + value == [] + ['='] + value;
    SplitFirstJoin([], '=', value);
  }

  /** Export only adds or overwrites variables; it never removes one. */
  lemma {:induction false} ExportKeepsNames(env: Env, args: seq<string>)
    ensures env.Keys <= ExportSpec(env, args).0.Keys
    decreases |args|
  {
    if args != [] {
      match SplitFirst(args[0], '=') {
        case None =>
        case Some((key, value)) =>
          if Settable(key, value) {
            ExportKeepsNames(env[key := value], args[1..]);
          }
      }
    }
  }

  /** The environment after `unset args...`: names that are set are removed,
      names that are not set are ignored. */
  function UnsetSpec(env: Env, args: seq<string>): (r: Env)
    ensures r.Keys <= env.Keys
    ensures forall k :: 0 <= k < |args| ==> args[k] !in r
    ensures forall x :: x in r ==> r[x] == env[x]
    decreases |args|
  {
    if args == [] then env
    else if args[0] in env then UnsetSpec(env - {args[0]}, args[1..])
    else UnsetSpec(env, args[1..])
  }

  /** `unset` removes exactly the named variables and touches no other. */
  lemma {:induction false} UnsetRemovesNamed(env: Env, args: seq<string>)
    ensures UnsetSpec(env, args) == env - set k | 0 <= k < |args| :: args[k]
    decreases |args|
  {
    if args != [] {
      var next := if args[0] in env then env - {args[0]} else env;
      UnsetRemovesNamed(next, args[1..]);
      var rest := set k | 0 <= k < |args[1..]| :: args[1..][k];
      var all := set k | 0 <= k < |args| :: args[k];
      assert all == {args[0]} + rest by {
        forall x | x in all ensures x in {args[0]} + rest {
          var k :| 0 <= k < |args| && args[k] == x;
          if k > 0 { assert args[1..][k - 1] == x; }
        }
        forall x | x in rest ensures x in all {
          var k :| 0 <= k < |args[1..]| && args[1..][k] == x;
          assert args[k + 1] == x;
        }
      }
    }
  }

  // ---------------------------------------------------------------------
  // which

  /** What the external `which` lookup reports: found (its standard output),
      not found, or the lookup itself raised (no `which` program). */
  datatype Lookup = Located(stdout: string) | Unlocated | LookupFailed

  /** One line of `which` output. */
  datatype Report = ShellBuiltin(name: string) | PathOf(path: string) | NotFound(name: string)

  /** The reports of `which args...` in order, and whether it raised. A name
      in the builtin table is reported as a shell builtin and the external
      lookup is not asked. */
  function WhichReports(table: set<string>, args: seq<string>, lookup: string -> Lookup): (r: (seq<Report>, bool))
    ensures |r.0| <= |args|
    ensures !r.1 ==> |r.0| == |args|
    decreases |args|
  {
    if args == [] then ([], false)
    else
      var cmd := args[0];
      if cmd in table then
        var (rest, raised) := WhichReports(table, args[1..], lookup);
        ([ShellBuiltin(cmd)] + rest, raised)
      else match lookup(cmd)
        case LookupFailed => ([], true)
        case Located(out) =>
          var (rest, raised) := WhichReports(table, args[1..], lookup);
          ([PathOf(Strip(out, IsSpace))] + rest, raised)
        case Unlocated =>
          var (rest, raised) := WhichReports(table, args[1..], lookup);
          ([NotFound(cmd)] + rest, raised)
  }

  /** Builtin names never reach the path search: a list of builtin names is
      reported the same way whatever the lookup would say. */
  lemma {:induction false} WhichBuiltinsSkipLookup(table: set<string>, args: seq<string>, l1: string -> Lookup, l2: string -> Lookup)
    requires forall k :: 0 <= k < |args| ==> args[k] in table
    ensures WhichReports(table, args, l1) == WhichReports(table, args, l2)
    ensures WhichReports(table, args, l1).0 == seq(|args|, k requires 0 <= k < |args| => ShellBuiltin(args[k]))
    ensures !WhichReports(table, args, l1).1
    decreases |args|
  {
    if args != [] {
      WhichBuiltinsSkipLookup(table, args[1..], l1, l2);
    }
  }

  /** Whatever the mix of names, the lookup is asked only about names not in
      the builtin table: two lookups that agree on those give the same
      reports and the same outcome. */
  lemma {:induction false} WhichAsksOnlyNonBuiltins(table: set<string>, args: seq<string>, l1: string -> Lookup, l2: string -> Lookup)
    requires forall k :: 0 <= k < |args| && args[k] !in table ==> l1(args[k]) == l2(args[k])
    ensures WhichReports(table, args, l1) == WhichReports(table, args, l2)
    decreases |args|
  {
    if args != [] {
      forall k | 0 <= k < |args[1..]| && args[1..][k] !in table ensures l1(args[1..][k]) == l2(args[1..][k]) {
        assert args[1..][k] == args[k + 1];
      }
      WhichAsksOnlyNonBuiltins(table, args[1..], l1, l2);
    }
  }

  // ---------------------------------------------------------------------
  // exit

  /** `exit args...`: `Some(code)` when the shell leaves with that status
      (no argument: 0), `None` when the first argument is not a number, in
      which case the builtin prints a message and returns normally. */
  function ExitRequest(args: seq<string>): (r: Option<int>)
    ensures args == [] ==> r == Some(0)
  {
    if args == [] then Some(0) else ParseInt(args[0])
  }

  lemma ExitWithNumber(n: int, rest: seq<string>)
    ensures ExitRequest([ShowInt(n)] + rest) == Some(n)
  {
    ParseShowInt(n);
  }

  lemma ExitNonNumeric(arg: string, rest: seq<string>)
    requires forall i :: 0 <= i < |arg| ==> !IsDigit(arg[i])
    ensures ExitRequest([arg] + rest) == None
  {
  }

  // ---------------------------------------------------------------------
  // history

  /** The first history number shown: the last 100 with no argument, from
      `length - n` with a digit string `n`, from 1 otherwise; never below 1. */
  function HistoryStart(length: nat, args: seq<string>): (start: int)
    ensures start >= 1
    ensures args == [] ==> start == if length > 100 then length - 100 else 1
    ensures args != [] && !IsDigits(args[0]) ==> start == 1
    ensures args != [] && IsDigits(args[0]) ==> start == if length > DigitsValue(args[0]) then length - DigitsValue(args[0]) else 1
  {
    if args == [] then Max(1, length - 100)
    else if IsDigits(args[0]) then Max(1, length - DigitsValue(args[0]))
    else 1
  }

  function Max(a: int, b: int): int {
    if a < b then b else a
  }

  /** The numbered entries `lo..hi` of the readline history `items`
      (numbered lo 1), empty entries skipped. */
  function Numbered(items: seq<string>, lo: nat, hi: nat): seq<(nat, string)>
    requires 1 <= lo && hi <= |items|
    decreases hi
  {
    if hi < lo then []
    else Numbered(items, lo, hi - 1) + (if items[hi - 1] != "" then [(hi, items[hi - 1])] else [])
  }

  /** Every printed line carries its history number and that entry's
      non-empty text; numbers increase; and no non-empty entry in range is
      left out. */
  lemma {:induction false} NumberedMeaning(items: seq<string>, lo: nat, hi: nat)
    requires 1 <= lo && hi <= |items|
    ensures forall k :: 0 <= k < |Numbered(items, lo, hi)| ==>
      lo <= Numbered(items, lo, hi)[k].0 <= hi &&
      Numbered(items, lo, hi)[k].1 == items[Numbered(items, lo, hi)[k].0 - 1] != ""
    ensures forall k, j :: 0 <= k < j < |Numbered(items, lo, hi)| ==>
      Numbered(items, lo, hi)[k].0 < Numbered(items, lo, hi)[j].0
    ensures forall j :: lo <= j + 1 <= hi && items[j] != "" ==>
      (j + 1, items[j]) in Numbered(items, lo, hi)
    decreases hi
  {
    if hi >= lo {
      NumberedMeaning(items, lo, hi - 1);
    }
  }

  /** The lines `history` prints: from `HistoryStart` to the newest entry. */
  method HistoryListing(items: seq<string>, args: seq<string>) returns (shown: seq<(nat, string)>)
    ensures shown == Numbered(items, HistoryStart(|items|, args), |items|)
  {
    var length := |items|;
    var start: nat := HistoryStart(length, args);
    shown := [];
    var i := start;
    while i <= length
      invariant start <= i
      invariant i <= length + 1 || i == start
      invariant shown == Numbered(items, start, if i - 1 < length then i - 1 else length)
      decreases length + 1 - i
    {
      var line := items[i - 1];
      if line != "" {
        shown := shown + [(i, line)];
      }
      i := i + 1;
    }
  }

  // ---------------------------------------------------------------------
  // Operand checks of the file builtins (mikush_shell.py only)

  /** `cat`, `mkdir`, `rmdir` and `rm` raise `ValueError` without an operand;
      `cp` and `mv` without two. */
  predicate MissingOperands(name: string, args: seq<string>)
    ensures MissingOperands(name, args) ==> name in ShellBuiltins - MikushBuiltins && |args| < 2
  {
    (name in {"cat", "mkdir", "rmdir", "rm"} && args == []) ||
    (name in {"cp", "mv"} && |args| < 2)
  }

  // ---------------------------------------------------------------------
  // ls target selection (mikush.py)

  /** `[a for a in args if a != flag]`. */
  function Without(args: seq<string>, flag: string): (r: seq<string>)
    ensures flag !in r
    ensures forall x :: x in r <==> x in args && x != flag
    ensures |r| <= |args|
  {
    if args == [] then []
    else Without(args[..|args| - 1], flag) + (if args[|args| - 1] == flag then [] else [args[|args| - 1]])
  }

  /** The filter keeps the other arguments in their order and number: it
      distributes over concatenation, so it is the same on every prefix. */
  lemma {:induction false} WithoutAppend(a: seq<string>, b: seq<string>, flag: string)
    ensures Without(a + b, flag) == Without(a, flag) + Without(b, flag)
    decreases |b|
  {
    if b == [] {
      assert a + b == a;
    } else {
      var init := b[..|b| - 1];
      assert (a + b)[..|a + b| - 1] == a + init;
      WithoutAppend(a, init, flag);
    }
  }

  function Operands(args: seq<string>): seq<string> {
    if args == [] then []
    else Operands(args[..|args| - 1]) + (if StartsWith(args[|args| - 1], "-") then [] else [args[|args| - 1]])
  }

  function Flags(args: seq<string>): seq<string> {
    if args == [] then []
    else Flags(args[..|args| - 1]) + (if StartsWith(args[|args| - 1], "-") then [args[|args| - 1]] else [])
  }

  /** The directory `ls` lists: the last argument that is not an option,
      `.` when there is none. */
  function LsTarget(args: seq<string>): string {
    LastOperand(Without(args, "--nya"))
  }

  function LastOperand(args: seq<string>): string {
    var operands := Operands(args);
    if operands == [] then "." else operands[|operands| - 1]
  }

  /** One more argument: an operand becomes the target, an option joins
      the options. */
  lemma LsStep(args: seq<string>, i: nat)
    requires i < |args|
    ensures LastOperand(args[..i + 1]) == if StartsWith(args[i], "-") then LastOperand(args[..i]) else args[i]
    ensures Flags(args[..i + 1]) == Flags(args[..i]) + if StartsWith(args[i], "-") then [args[i]] else []
  {
    assert args[..i + 1][..i] == args[..i];
  }

  /** `builtin_ls` in mikush.py up to the listing: whether `--nya` was
      given, the directory to list and the other options, in order. */
  method SelectLsTarget(args: seq<string>) returns (nya: bool, target: string, lsArgs: seq<string>)
    ensures nya <==> "--nya" in args
    ensures target == LsTarget(args)
    ensures lsArgs == Flags(Without(args, "--nya"))
  {
    nya := "--nya" in args;
    var rest := args;
    if nya {
      rest := Without(args, "--nya");
    } else {
      assert Without(args, "--nya") == args by { WithoutAbsent(args, "--nya"); }
    }
    target := ".";
    lsArgs := [];
    for i := 0 to |rest|
      invariant target == LastOperand(rest[..i])
      invariant lsArgs == Flags(rest[..i])
    {
      var arg := rest[i];
      LsStep(rest, i);
      if !StartsWith(arg, "-") {
        target := arg;
      } else {
        lsArgs := lsArgs + [arg];
      }
    }
    assert rest[..|rest|] == rest;
  }

  lemma {:induction false} WithoutAbsent(args: seq<string>, flag: string)
    requires flag !in args
    ensures Without(args, flag) == args
  {
    if args != [] {
      WithoutAbsent(args[..|args| - 1], flag);
    }
  }

  /** The target is `.` or one of the arguments, never an option. */
  lemma {:induction false} OperandsAreArgs(args: seq<string>)
    ensures forall x :: x in Operands(args) ==> x in args && !StartsWith(x, "-")
  {
    if args != [] {
      OperandsAreArgs(args[..|args| - 1]);
    }
  }

  lemma LsTargetIsOperand(args: seq<string>)
    ensures LsTarget(args) == "." || (LsTarget(args) in args && !StartsWith(LsTarget(args), "-") && LsTarget(args) != "--nya")
  {
    OperandsAreArgs(Without(args, "--nya"));
  }

  /** The last operand decides: an operand appended after the others
      becomes the target. */
  lemma LsTargetIsLast(args: seq<string>, x: string)
    requires x != "--nya" && !StartsWith(x, "-")
    ensures LsTarget(args + [x]) == x
  {
    assert (args + [x])[..|args|] == args;
    var kept := Without(args, "--nya") + [x];
    assert Without(args + [x], "--nya") == kept;
    assert kept[..|kept| - 1] == Without(args, "--nya");
  }
}
