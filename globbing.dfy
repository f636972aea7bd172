/** Glob pass-through for external commands (mikush_shell.py:469-479,
    mikush.py:551-561): an argument with a wildcard is replaced in place by
    its matches in sorted order, or kept literally when nothing matches.
    The filesystem lookup itself (`glob.glob`) is a parameter. */
module Globbing {
  import opened Text

  /** Python's string order: code point by code point, a proper prefix first. */
  predicate StrLe(a: string, b: string)
    decreases |a|
  {
    a == [] || (b != [] && (a[0] < b[0] || (a[0] == b[0] && StrLe(a[1..], b[1..]))))
  }

  lemma {:induction false} StrLeTotal(a: string, b: string)
    ensures StrLe(a, b) || StrLe(b, a)
    decreases |a|
  {
    if a != [] && b != [] && a[0] == b[0] {
      StrLeTotal(a[1..], b[1..]);
    }
  }

  lemma {:induction false} StrLeTrans(a: string, b: string, c: string)
    requires StrLe(a, b) && StrLe(b, c)
    ensures StrLe(a, c)
    decreases |a|
  {
    if a != [] && b != [] && c != [] && a[0] == b[0] == c[0] {
      StrLeTrans(a[1..], b[1..], c[1..]);
    }
  }

  predicate Sorted(s: seq<string>) {
    forall i, j :: 0 <= i < j < |s| ==> StrLe(s[i], s[j])
  }

  function Insert(x: string, s: seq<string>): (r: seq<string>)
    requires Sorted(s)
    ensures Sorted(r)
    ensures multiset(r) == multiset(s) + multiset{x}
  {
    if s == [] then [x]
    else if StrLe(x, s[0]) then
      assert forall j :: 0 <= j < |s| ==> StrLe(x, s[j]) by {
        forall j | 0 <= j < |s| ensures StrLe(x, s[j]) {
          if j > 0 { StrLeTrans(x, s[0], s[j]); }
        }
      }
      [x] + s
    else
      StrLeTotal(x, s[0]);
      var rest := Insert(x, s[1..]);
      assert s == [s[0]] + s[1..];
      assert forall y :: y in multiset(rest) ==> StrLe(s[0], y);
      assert forall j :: 0 <= j < |rest| ==> StrLe(s[0], rest[j]) by {
        forall j | 0 <= j < |rest| ensures StrLe(s[0], rest[j]) {
          assert rest[j] in multiset(rest);
        }
      }
      [s[0]] + rest
  }

  /** `sorted(matches)`. */
  function Sort(s: seq<string>): (r: seq<string>)
    ensures Sorted(r)
    ensures multiset(r) == multiset(s)
  {
    if s == [] then []
    else
      assert s == [s[0]] + s[1..];
      Insert(s[0], Sort(s[1..]))
  }

  /** `any(char in arg for char in ['*', '?', '[', ']'])` */
  predicate HasWildcard(arg: string) {
    '*' in arg || '?' in arg || '[' in arg || ']' in arg
  }

  /** What one argument becomes. `glob` is the filesystem lookup, asked only
      for arguments that carry a wildcard. */
  function ExpandArg(arg: string, glob: string -> seq<string>): seq<string> {
    if HasWildcard(arg) then
      var matches := glob(arg);
      if matches != [] then Sort(matches) else [arg]
    else [arg]
  }

  /** An argument without a wildcard is kept; a pattern with matches becomes
      exactly those matches, sorted; a pattern without matches is kept
      literally. */
  lemma ExpandArgMeaning(arg: string, glob: string -> seq<string>)
    ensures !HasWildcard(arg) ==> ExpandArg(arg, glob) == [arg]
    ensures HasWildcard(arg) && glob(arg) == [] ==> ExpandArg(arg, glob) == [arg]
    ensures HasWildcard(arg) && glob(arg) != [] ==>
      Sorted(ExpandArg(arg, glob)) && multiset(ExpandArg(arg, glob)) == multiset(glob(arg))
  {
  }

  /** Each argument replaced by its image under `f`, left to right. */
  function FlatMap(args: seq<string>, f: string -> seq<string>): seq<string> {
    if args == [] then [] else FlatMap(args[..|args| - 1], f) + f(args[|args| - 1])
  }

  /** The expanded argument list. */
  function ExpandAll(args: seq<string>, glob: string -> seq<string>): seq<string> {
    FlatMap(args, arg => ExpandArg(arg, glob))
  }

  method ExpandGlobs(args: seq<string>, glob: string -> seq<string>) returns (expanded: seq<string>)
    ensures expanded == ExpandAll(args, glob)
  {
    expanded := [];
    for i := 0 to |args|
      invariant expanded == ExpandAll(args[..i], glob)
    {
      var arg := args[i];
      FlatMapSnoc(args[..i], arg, a => ExpandArg(a, glob));
      assert args[..i] + [arg] == args[..i + 1];
      if HasWildcard(arg) {
        var matches := glob(arg);
        if matches != [] {
          expanded := expanded + Sort(matches);
        } else {
          expanded := expanded + [arg];
        }
      } else {
        expanded := expanded + [arg];
      }
    }
    assert args[..|args|] == args;
  }

  lemma FlatMapSnoc(xs: seq<string>, last: string, f: string -> seq<string>)
    ensures FlatMap(xs + [last], f) == FlatMap(xs, f) + f(last)
  {
    assert (xs + [last])[..|xs|] == xs;
  }

  lemma {:induction false} FlatMapAppend(a: seq<string>, b: seq<string>, f: string -> seq<string>)
    ensures FlatMap(a + b, f) == FlatMap(a, f) + FlatMap(b, f)
    decreases |b|
  {
    if b == [] {
      assert a + b == a;
    } else {
      var init, last := b[..|b| - 1], b[|b| - 1];
      assert b == init + [last];
      assert a + b == (a + init) + [last];
      FlatMapAppend(a, init, f);
      FlatMapSnoc(a + init, last, f);
      FlatMapSnoc(init, last, f);
    }
  }

  /** Expansion works argument by argument: each argument's expansion takes
      its place, so the list splits wherever the arguments do. */
  lemma ExpandAllAppend(a: seq<string>, b: seq<string>, glob: string -> seq<string>)
    ensures ExpandAll(a + b, glob) == ExpandAll(a, glob) + ExpandAll(b, glob)
  {
    FlatMapAppend(a, b, arg => ExpandArg(arg, glob));
  }

  /** Arguments without wildcards reach the program unchanged, whatever the
      filesystem holds. */
  lemma {:induction false} PlainArgsUnchanged(args: seq<string>, glob: string -> seq<string>)
    requires forall k :: 0 <= k < |args| ==> !HasWildcard(args[k])
    ensures ExpandAll(args, glob) == args
  {
    if args != [] {
      PlainArgsUnchanged(args[..|args| - 1], glob);
    }
  }

  /** No argument disappears: a pattern with no match stays as itself. */
  lemma {:induction false} ExpansionNeverShrinks(args: seq<string>, glob: string -> seq<string>)
    ensures |ExpandAll(args, glob)| >= |args|
  {
    if args != [] {
      ExpansionNeverShrinks(args[..|args| - 1], glob);
    }
  }

  /** In place: the expansion of the argument at position k sits between the
      expansions of the arguments before it and after it. */
  lemma ExpandedInPlace(args: seq<string>, k: nat, glob: string -> seq<string>)
    requires k < |args|
    ensures ExpandAll(args, glob) ==
      ExpandAll(args[..k], glob) + ExpandArg(args[k], glob) + ExpandAll(args[k + 1..], glob)
  {
    var f := arg => ExpandArg(arg, glob);
    var pre, mid, post := args[..k], [args[k]], args[k + 1..];
    assert args == (pre + mid) + post;
    FlatMapAppend(pre + mid, post, f);
    FlatMapSnoc(pre, args[k], f);
  }
}
