/** Aliases: the one-level substitution at the head of `execute_command`
    (mikush_shell.py:420-424, mikush.py:483-487) and the table updates of
    the `alias` builtin (mikush_shell.py:778-790, mikush.py:759-771). */
module Aliasing {
  import opened Text

  type Table = map<string, string>

  /** The token list after alias handling. `parts` is `shlex.split(line)`
      and `split` stands for `shlex.split` itself (`None`: it raised).
      Only `parts[0]` is looked up; its first textual occurrence in the raw
      line is replaced and the line is split again, with no second lookup. */
  function ResolveAlias(line: string, parts: seq<string>, aliases: Table, split: string -> Option<seq<string>>): (r: Option<seq<string>>)
    requires |parts| > 0
    ensures r.None? ==> parts[0] in aliases
    ensures parts[0] !in aliases ==> r == Some(parts)
  {
    if parts[0] in aliases then split(ReplaceFirst(line, parts[0], aliases[parts[0]]))
    else Some(parts)
  }

  /** Only the entry for the first token matters: two tables that agree on
      it resolve every line alike, so an alias whose text starts with another
      alias is not expanded again. */
  lemma OnlyFirstTokenLookedUp(line: string, parts: seq<string>, a1: Table, a2: Table, split: string -> Option<seq<string>>)
    requires |parts| > 0
    requires parts[0] in a1 <==> parts[0] in a2
    requires parts[0] in a1 ==> a1[parts[0]] == a2[parts[0]]
    ensures ResolveAlias(line, parts, a1, split) == ResolveAlias(line, parts, a2, split)
  {
  }

  /** When the line starts with the aliased word (the usual case) the alias
      text takes its place and the rest of the line follows unchanged. */
  lemma AliasReplacesLeadingWord(line: string, parts: seq<string>, aliases: Table, split: string -> Option<seq<string>>)
    requires |parts| > 0 && parts[0] in aliases && StartsWith(line, parts[0])
    ensures ResolveAlias(line, parts, aliases, split) == split(aliases[parts[0]] + line[|parts[0]|..])
  {
    ReplaceFirstAtStart(line, parts[0], aliases[parts[0]]);
  }

  /** A line whose first token is no alias keeps its tokens. */
  lemma NoAliasKeepsTokens(line: string, parts: seq<string>, aliases: Table, split: string -> Option<seq<string>>)
    requires |parts| > 0 && parts[0] !in aliases
    ensures ResolveAlias(line, parts, aliases, split) == Some(parts)
  {
  }

  /** `command.strip('\'"')`: exactly the leading and the trailing run of
      quote characters are removed; what is left neither starts nor ends
      with a quote. */
  function StripQuotes(s: string): (r: string)
    ensures r != [] ==> !IsQuote(r[0]) && !IsQuote(r[|r| - 1])
    ensures r == [] ==> forall k :: 0 <= k < |s| ==> IsQuote(s[k])
    ensures var lead := LeadCount(s, IsQuote);
      lead + |r| <= |s| && r == s[lead..lead + |r|] &&
      (forall k :: 0 <= k < lead ==> IsQuote(s[k])) &&
      (forall k :: lead + |r| <= k < |s| ==> IsQuote(s[k]))
  {
    Strip(s, IsQuote)
  }

  /** Stripping twice strips nothing more. */
  lemma StripQuotesIdempotent(s: string)
    ensures StripQuotes(StripQuotes(s)) == StripQuotes(s)
  {
    var r := StripQuotes(s);
    if r != [] {
      StripKeeps(r, IsQuote);
    }
  }

  /** The table after `alias args...` with at least one argument: each
      `name=cmd` stores `cmd` without surrounding quotes; a bare name only
      prints and never changes the table. (With no argument the table is
      printed and left as it is.) */
  function AliasSpec(aliases: Table, args: seq<string>): (r: Table)
    ensures aliases.Keys <= r.Keys
    decreases |args|
  {
    if args == [] then aliases
    else match SplitFirst(args[0], '=')
      case None => AliasSpec(aliases, args[1..])
      case Some((name, cmd)) => AliasSpec(aliases[name := StripQuotes(cmd)], args[1..])
  }

  /** Bare names never modify the table. */
  lemma {:induction false} BareNamesKeepTable(aliases: Table, args: seq<string>)
    requires forall k :: 0 <= k < |args| ==> '=' !in args[k]
    ensures AliasSpec(aliases, args) == aliases
    decreases |args|
  {
    if args != [] {
      BareNamesKeepTable(aliases, args[1..]);
    }
  }

  /** Names that no argument defines keep their entry (or their absence). */
  lemma {:induction false} UndefinedNamesKept(aliases: Table, args: seq<string>, name: string)
    requires forall k :: 0 <= k < |args| ==> !StartsWith(args[k], name + "=")
    ensures name in AliasSpec(aliases, args) <==> name in aliases
    ensures name in aliases ==> AliasSpec(aliases, args)[name] == aliases[name]
    decreases |args|
  {
    if args != [] {
      var next := aliases;
      match SplitFirst(args[0], '=') {
        case None =>
        case Some((key, cmd)) =>
          next := aliases[key := StripQuotes(cmd)];
      }
      forall j | 0 <= j < |args[1..]| ensures !StartsWith(args[1..][j], name + "=") {
        assert args[1..][j] == args[j + 1];
      }
      UndefinedNamesKept(next, args[1..], name);
    }
  }

  /** Last write wins: after `name=cmd`, later arguments that do not define
      `name` again leave it at `cmd` with its quotes stripped. */
  lemma {:induction false} LastDefinitionWins(aliases: Table, args: seq<string>, k: nat, name: string, cmd: string)
    requires k < |args| && '=' !in name && args[k] == name + "=" + cmd
    requires forall j :: k < j < |args| ==> !StartsWith(args[j], name + "=")
    ensures name in AliasSpec(aliases, args) && AliasSpec(aliases, args)[name] == StripQuotes(cmd)
    decreases |args|
  {
    SplitFirstJoin(name, '=', cmd);
    assert name + "=" + cmd == name + ['='] + cmd;
    if k == 0 {
      var next := aliases[name := StripQuotes(cmd)];
      forall j | 0 <= j < |args[1..]| ensures !StartsWith(args[1..][j], name + "=") {
        assert args[1..][j] == args[j + 1];
      }
      UndefinedNamesKept(next, args[1..], name);
    } else {
      var next := match SplitFirst(args[0], '=')
        case None => aliases
        case Some((n, c)) => aliases[n := StripQuotes(c)];
      assert args[1..][k - 1] == args[k];
      forall j | k - 1 < j < |args[1..]| ensures !StartsWith(args[1..][j], name + "=") {
        assert args[1..][j] == args[j + 1];
      }
      LastDefinitionWins(next, args[1..], k - 1, name, cmd);
    }
  }
}
