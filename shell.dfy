/** The `MikuShell` object: its alias table, the process environment it
    writes through `os.environ`, and `last_exit_code`, updated in place by
    `execute_command` and the builtins. Both copies of the shell share this
    class; `variant` says which one an instance is. */
module Shell {
  import opened Text
  import opened Redirection
  import opened Globbing
  import opened Aliasing
  import opened Builtins
  import opened Pipeline

  class MikuShell {
    const variant: Variant
    var aliases: map<string, string>
    var env: map<string, string>
    var lastExitCode: int

    function State(): Session
      reads this
    {
      Session(aliases, env, lastExitCode)
    }

    /** A fresh shell: no aliases, exit code 0, the inherited environment. */
    constructor(v: Variant, environ: map<string, string>)
      ensures variant == v && State() == Session(map[], environ, 0)
    {
      variant := v;
      aliases := map[];
      env := environ;
      lastExitCode := 0;
    }

    /** `builtin_export`: applies the pairs in turn and reports whether it
        raised on an argument without `=`. */
    method Export(args: seq<string>) returns (raised: bool)
      modifies this
      ensures (env, raised) == ExportSpec(old(env), args)
      ensures aliases == old(aliases) && lastExitCode == old(lastExitCode)
    {
      for i := 0 to |args|
        invariant ExportSpec(old(env), args) == ExportSpec(env, args[i..])
        invariant aliases == old(aliases) && lastExitCode == old(lastExitCode)
      {
        assert args[i..][1..] == args[i + 1..];
        match SplitFirst(args[i], '=') {
          case None =>
            return true;
          case Some((key, value)) =>
            if !Settable(key, value) {
              return true;
            }
            env := env[key := value];
        }
      }
      assert args[|args|..] == [];
      return false;
    }

    /** `builtin_unset`: deletes each named variable that is set. */
    method Unset(args: seq<string>)
      modifies this
      ensures env == UnsetSpec(old(env), args)
      ensures aliases == old(aliases) && lastExitCode == old(lastExitCode)
    {
      for i := 0 to |args|
        invariant UnsetSpec(old(env), args) == UnsetSpec(env, args[i..])
        invariant aliases == old(aliases) && lastExitCode == old(lastExitCode)
      {
        assert args[i..][1..] == args[i + 1..];
        if args[i] in env {
          env := env - {args[i]};
        }
      }
      assert args[|args|..] == [];
    }

    /** `builtin_alias`: stores each `name=cmd` with the quotes stripped;
        bare names and an empty argument list only print. */
    method Alias(args: seq<string>)
      modifies this
      ensures aliases == AliasSpec(old(aliases), args)
      ensures env == old(env) && lastExitCode == old(lastExitCode)
    {
      for i := 0 to |args|
        invariant AliasSpec(old(aliases), args) == AliasSpec(aliases, args[i..])
        invariant env == old(env) && lastExitCode == old(lastExitCode)
      {
        assert args[i..][1..] == args[i + 1..];
        match SplitFirst(args[i], '=') {
          case None =>
          case Some((name, cmd)) =>
            aliases := aliases[name := StripQuotes(cmd)];
        }
      }
      assert args[|args|..] == [];
    }

    /** `self.builtins[cmd](args)`: how the builtin ended and what it did to
        the state. */
    method CallBuiltin(name: string, args: seq<string>, w: World) returns (ending: BuiltinResult)
      modifies this
      ensures (State(), ending) == RunBuiltin(variant, old(State()), w, name, args)
    {
      if name == "export" {
        var raised := Export(args);
        ending := if raised then Raised else Returned;
      } else if name == "unset" {
        Unset(args);
        ending := Returned;
      } else if name == "alias" {
        Alias(args);
        ending := Returned;
      } else if name == "which" {
        ending := if WhichReports(BuiltinNames(variant), args, w.lookup).1 then Raised else Returned;
      } else if name == "exit" {
        var code := ExitRequest(args);
        ending := if code.Some? then Exits(code.value) else Returned;
      } else if name == "history" {
        ending := Returned;
      } else if variant == MikushPy && name == "ls" {
        var nya, target, lsArgs := SelectLsTarget(args);
        ending := if w.listdirFails(target) then Raised else Returned;
      } else if variant == ShellPy && MissingOperands(name, args) {
        ending := Raised;
      } else {
        ending := if w.builtinRaises(name, args) then Raised else Returned;
      }
    }

    /** `execute_command`: the new state and what the call did are those of
        the pipeline specification. */
    method ExecuteCommand(line: string, w: World) returns (effect: Effect)
      modifies this
      ensures (State(), effect) == Exec(variant, old(State()), w, line)
    {
      if Blank(line) {
        return Ignored;
      }
      var parts := w.split(line);
      if parts.None? {
        return SplitFailed;
      }
      if parts.value == [] {
        return NoFirstToken;
      }
      var tokens := ResolveAlias(line, parts.value, aliases, w.split);
      if tokens.None? {
        return SplitFailed;
      }
      var ex := HandleRedirection(tokens.value, ExpandIn(w, env));
      if ex.MissingTarget? {
        lastExitCode := 1;
        return Aborted(Some(ex.op));
      }
      var clean, r := ex.clean, ex.redirect;
      if clean == [] {
        return Ignored;
      }
      if clean[0] in BuiltinNames(variant) {
        var ending := CallBuiltin(clean[0], clean[1..], w);
        if ending.Returned? {
          lastExitCode := 0;
        } else if ending.Raised? {
          lastExitCode := 1;
        }
        return RanBuiltin(clean[0], clean[1..], ending);
      }
      var failure := FirstOpenFailure(r, w.open);
      if failure.Some? {
        lastExitCode := OpenFailureCode(variant, failure.value.0, failure.value.1);
        return OpenFailed(failure.value.0, failure.value.1);
      }
      var argv := ExpandGlobs(clean, w.glob);
      var res := w.run(argv, r, env);
      lastExitCode := RunCode(res);
      return RanExternal(argv, r, env, res);
    }
  }
}
