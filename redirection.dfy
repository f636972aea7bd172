/** `handle_redirection`: the token scanner that pulls `>`, `>>`, `<` and `2>`
    and their targets out of a command's token list. Both copies of the shell
    carry the same scanner (mikush_shell.py:367-413, mikush.py:430-476).

    The specification reads the token list as a sequence of segments: a plain
    word, or an operator followed by exactly one target token. The scan fails
    only when an operator is the last token. */
module Redirection {
  import opened Text

  /** The four operators: `>`, `>>`, `<`, `2>`. */
  datatype Op = Truncate | Append | Input | ErrorOut

  function OpToken(op: Op): string {
    match op
    case Truncate => ">"
    case Append => ">>"
    case Input => "<"
    case ErrorOut => "2>"
  }

  function OpOf(tok: string): (r: Option<Op>)
    ensures r.Some? ==> OpToken(r.value) == tok
    ensures forall op :: OpToken(op) == tok ==> r == Some(op)
  {
    if tok == ">" then Some(Truncate)
    else if tok == ">>" then Some(Append)
    else if tok == "<" then Some(Input)
    else if tok == "2>" then Some(ErrorOut)
    else None
  }

  predicate IsOperator(tok: string) {
    OpOf(tok).Some?
  }

  /** The redirection targets found, after `expand_path`; `append` is the
      `append_mode` flag. */
  datatype Redirect = Redirect(stdin: Option<string>, stdout: Option<string>, stderr: Option<string>, append: bool)

  const NoRedirect := Redirect(None, None, None, false)

  datatype Seg = Word(word: string) | Pair(op: Op, target: string)

  datatype Scan = Scanned(segs: seq<Seg>) | Missing(op: Op)

  /** Left-to-right segmentation of the tokens, as the scanner walks them. */
  function Segment(args: seq<string>): Scan
    decreases |args|
  {
    if args == [] then Scanned([])
    else match OpOf(args[0])
      case None => Prepend([Word(args[0])], Segment(args[1..]))
      case Some(op) =>
        if |args| < 2 then Missing(op)
        else Prepend([Pair(op, args[1])], Segment(args[2..]))
  }

  function Prepend(done: seq<Seg>, rest: Scan): Scan {
    match rest
    case Scanned(segs) => Scanned(done + segs)
    case Missing(op) => Missing(op)
  }

  function SegTokens(g: Seg): seq<string> {
    match g
    case Word(w) => [w]
    case Pair(op, t) => [OpToken(op), t]
  }

  /** The tokens the segments were read from. */
  function Flatten(segs: seq<Seg>): seq<string> {
    if segs == [] then [] else Flatten(segs[..|segs| - 1]) + SegTokens(segs[|segs| - 1])
  }

  /** The clean arguments: the words, in order. */
  function Words(segs: seq<Seg>): seq<string> {
    if segs == [] then []
    else Words(segs[..|segs| - 1]) + (if segs[|segs| - 1].Word? then [segs[|segs| - 1].word] else [])
  }

  function PairCount(segs: seq<Seg>): nat {
    if segs == [] then 0
    else PairCount(segs[..|segs| - 1]) + (if segs[|segs| - 1].Pair? then 1 else 0)
  }

  /** A segmentation the scanner can produce: no word is an operator. */
  predicate WellFormed(segs: seq<Seg>) {
    forall i :: 0 <= i < |segs| && segs[i].Word? ==> !IsOperator(segs[i].word)
  }

  /** The effect of one segment on the targets found so far. */
  function Apply(r: Redirect, g: Seg, expand: string -> string): Redirect {
    match g
    case Word(_) => r
    case Pair(Truncate, t) => r.(stdout := Some(expand(t)))
    case Pair(Append, t) => r.(stdout := Some(expand(t)), append := true)
    case Pair(Input, t) => r.(stdin := Some(expand(t)))
    case Pair(ErrorOut, t) => r.(stderr := Some(expand(t)))
  }

  function ApplyAll(r: Redirect, segs: seq<Seg>, expand: string -> string): Redirect {
    if segs == [] then r else Apply(ApplyAll(r, segs[..|segs| - 1], expand), segs[|segs| - 1], expand)
  }

  /** The five-tuple of `handle_redirection`: the error tuple on a missing
      target, the clean arguments and the targets otherwise. */
  datatype Extraction = Extracted(clean: seq<string>, redirect: Redirect) | MissingTarget(op: Op)

  function Extract(args: seq<string>, expand: string -> string): (r: Extraction)
    ensures r.MissingTarget? ==> |args| > 0 && args[|args| - 1] == OpToken(r.op)
    ensures r.Extracted? ==> |r.clean| <= |args|
    ensures r.Extracted? ==> forall k :: 0 <= k < |r.clean| ==> !IsOperator(r.clean[k])
  {
    match Segment(args)
    case Missing(op) =>
      MissingIsTrailing(args, op);
      MissingTarget(op)
    case Scanned(segs) =>
      SegmentFlattens(args);
      FlattenLength(segs);
      WordsNotOperators(segs);
      Extracted(Words(segs), ApplyAll(NoRedirect, segs, expand))
  }

  lemma PrependPrepend(done: seq<Seg>, more: seq<Seg>, rest: Scan)
    ensures Prepend(done, Prepend(more, rest)) == Prepend(done + more, rest)
  {
    if rest.Scanned? {
      assert done + (more + rest.segs) == (done + more) + rest.segs;
    }
  }

  /** One more segment, in the scanner's left-to-right order. */
  lemma StepSeg(done: seq<Seg>, g: Seg, expand: string -> string)
    ensures Words(done + [g]) == Words(done) + (if g.Word? then [g.word] else [])
    ensures ApplyAll(NoRedirect, done + [g], expand) == Apply(ApplyAll(NoRedirect, done, expand), g, expand)
  {
    assert (done + [g])[..|done|] == done;
  }

  method HandleRedirection(args: seq<string>, expand: string -> string) returns (res: Extraction)
    ensures res == Extract(args, expand)
  {
    var stdin: Option<string> := None;
    var stdout: Option<string> := None;
    var stderr: Option<string> := None;
    var append := false;
    var i := 0;
    var clean: seq<string> := [];
    ghost var done: seq<Seg> := [];
    while i < |args|
      invariant 0 <= i <= |args|
      invariant Segment(args) == Prepend(done, Segment(args[i..]))
      invariant clean == Words(done)
      invariant Redirect(stdin, stdout, stderr, append) == ApplyAll(NoRedirect, done, expand)
      decreases |args| - i
    {
      var arg := args[i];
      var op := OpOf(arg);
      if op.None? {
        assert args[i..][1..] == args[i + 1..];
        PrependPrepend(done, [Word(arg)], Segment(args[i + 1..]));
        StepSeg(done, Word(arg), expand);
        clean := clean + [arg];
        done := done + [Word(arg)];
        i := i + 1;
      } else if i + 1 < |args| {
        var target := expand(args[i + 1]);
        match op.value {
          case Truncate => stdout := Some(target);
          case Append => stdout := Some(target); append := true;
          case Input => stdin := Some(target);
          case ErrorOut => stderr := Some(target);
        }
        assert args[i..][2..] == args[i + 2..];
        PrependPrepend(done, [Pair(op.value, args[i + 1])], Segment(args[i + 2..]));
        StepSeg(done, Pair(op.value, args[i + 1]), expand);
        done := done + [Pair(op.value, args[i + 1])];
        i := i + 2;
      } else {
        return MissingTarget(op.value);
      }
    }
    assert args[i..] == [];
    assert done + [] == done;
    return Extracted(clean, Redirect(stdin, stdout, stderr, append));
  }

  // ---------------------------------------------------------------------
  // What the extraction means

  lemma {:induction false} FlattenAppend(a: seq<Seg>, b: seq<Seg>)
    ensures Flatten(a + b) == Flatten(a) + Flatten(b)
    decreases |b|
  {
    if b == [] {
      assert a + b == a;
    } else {
      assert (a + b)[..|a + b| - 1] == a + b[..|b| - 1];
      FlattenAppend(a, b[..|b| - 1]);
    }
  }

  lemma {:induction false} WordsAppend(a: seq<Seg>, b: seq<Seg>)
    ensures Words(a + b) == Words(a) + Words(b)
    decreases |b|
  {
    if b == [] {
      assert a + b == a;
    } else {
      assert (a + b)[..|a + b| - 1] == a + b[..|b| - 1];
      WordsAppend(a, b[..|b| - 1]);
    }
  }

  lemma {:induction false} FlattenLength(segs: seq<Seg>)
    ensures |Flatten(segs)| == |Words(segs)| + 2 * PairCount(segs)
  {
    if segs != [] {
      FlattenLength(segs[..|segs| - 1]);
    }
  }

  /** A successful scan reads the tokens as well-formed segments: the tokens
      are exactly the segments laid end to end. */
  lemma {:induction false} SegmentFlattens(args: seq<string>)
    requires Segment(args).Scanned?
    ensures Flatten(Segment(args).segs) == args
    ensures WellFormed(Segment(args).segs)
    decreases |args|
  {
    if args != [] {
      var first: Seg, rest: seq<string>;
      if OpOf(args[0]).None? {
        first, rest := Word(args[0]), args[1..];
      } else {
        first, rest := Pair(OpOf(args[0]).value, args[1]), args[2..];
      }
      assert Segment(args) == Prepend([first], Segment(rest));
      SegmentFlattens(rest);
      var tail := Segment(rest).segs;
      FlattenAppend([first], tail);
      assert Flatten([first]) == SegTokens(first);
      assert SegTokens(first) + rest == args;
      assert Segment(args).segs == [first] + tail;
      forall i | 0 <= i < |Segment(args).segs| && Segment(args).segs[i].Word?
        ensures !IsOperator(Segment(args).segs[i].word)
      {
        if i > 0 {
          assert Segment(args).segs[i] == tail[i - 1];
        }
      }
    }
  }

  /** The inverse direction: laying well-formed segments end to end and
      scanning the result gives the same segments back. */
  lemma {:induction false} SegmentOfFlatten(segs: seq<Seg>)
    requires WellFormed(segs)
    ensures Segment(Flatten(segs)) == Scanned(segs)
    decreases |segs|
  {
    if segs != [] {
      var first, tail := segs[0], segs[1..];
      assert segs == [first] + tail;
      assert WellFormed(tail) by {
        forall i | 0 <= i < |tail| && tail[i].Word? ensures !IsOperator(tail[i].word) {
          assert tail[i] == segs[i + 1];
        }
      }
      SegmentOfFlatten(tail);
      FlattenAppend([first], tail);
      assert Flatten([first]) == SegTokens(first) by {
        assert [first][..0] == [];
      }
      var args := Flatten(segs);
      assert args == SegTokens(first) + Flatten(tail);
      match first {
        case Word(w) =>
          assert !IsOperator(segs[0].word);
          assert args[0] == w && args[1..] == Flatten(tail);
          assert Segment(args) == Prepend([Word(w)], Segment(Flatten(tail)));
        case Pair(op, t) =>
          assert args[0] == OpToken(op) && args[1] == t && args[2..] == Flatten(tail);
          assert OpOf(args[0]) == Some(op);
          assert Segment(args) == Prepend([Pair(op, t)], Segment(Flatten(tail)));
      }
    }
  }

  /** On success the clean arguments are the words of the segmentation, in
      their original order; none of them is an operator; and each operator
      took exactly one token with it. */
  lemma ExtractKeepsOrder(args: seq<string>, expand: string -> string)
    requires Extract(args, expand).Extracted?
    ensures Segment(args).Scanned?
    ensures Flatten(Segment(args).segs) == args
    ensures Extract(args, expand).clean == Words(Segment(args).segs)
    ensures |Extract(args, expand).clean| == |args| - 2 * PairCount(Segment(args).segs)
    ensures forall k :: 0 <= k < |Extract(args, expand).clean| ==> !IsOperator(Extract(args, expand).clean[k])
  {
    var segs := Segment(args).segs;
    SegmentFlattens(args);
    FlattenLength(segs);
    WordsNotOperators(segs);
  }

  /** The segmentation of tokens none of which is an operator: all words. */
  function WordSegs(args: seq<string>): (segs: seq<Seg>)
    ensures |segs| == |args| && forall i :: 0 <= i < |args| ==> segs[i] == Word(args[i])
  {
    seq(|args|, i requires 0 <= i < |args| => Word(args[i]))
  }

  lemma {:induction false} WordSegsFacts(args: seq<string>, expand: string -> string)
    ensures Flatten(WordSegs(args)) == args
    ensures Words(WordSegs(args)) == args
    ensures ApplyAll(NoRedirect, WordSegs(args), expand) == NoRedirect
    decreases |args|
  {
    if args != [] {
      var n := |args|;
      assert WordSegs(args)[..n - 1] == WordSegs(args[..n - 1]);
      WordSegsFacts(args[..n - 1], expand);
      assert args[..n - 1] + [args[n - 1]] == args;
    }
  }

  /** A token list without operators passes through unchanged, with no
      redirection. */
  lemma PlainTokensPassThrough(args: seq<string>, expand: string -> string)
    requires forall k :: 0 <= k < |args| ==> !IsOperator(args[k])
    ensures Extract(args, expand) == Extracted(args, NoRedirect)
  {
    WordSegsFacts(args, expand);
    SegmentOfFlatten(WordSegs(args));
  }

  lemma {:induction false} WordsNotOperators(segs: seq<Seg>)
    requires WellFormed(segs)
    ensures forall k :: 0 <= k < |Words(segs)| ==> !IsOperator(Words(segs)[k])
  {
    if segs != [] {
      var init := segs[..|segs| - 1];
      assert WellFormed(init) by {
        forall i | 0 <= i < |init| && init[i].Word? ensures !IsOperator(init[i].word) {
          assert init[i] == segs[i];
        }
      }
      WordsNotOperators(init);
    }
  }

  /** The scan fails exactly when the tokens are a well-scanned prefix
      followed by one operator with nothing after it; the error names that
      operator. */
  lemma MissingIffTrailingOperator(args: seq<string>, op: Op)
    ensures Segment(args) == Missing(op) <==>
      (|args| > 0 && args[|args| - 1] == OpToken(op) && Segment(args[..|args| - 1]).Scanned?)
  {
    if Segment(args) == Missing(op) {
      MissingIsTrailing(args, op);
    }
    if |args| > 0 && args[|args| - 1] == OpToken(op) && Segment(args[..|args| - 1]).Scanned? {
      TrailingIsMissing(args[..|args| - 1], op);
      assert args[..|args| - 1] + [OpToken(op)] == args;
    }
  }

  lemma {:induction false} MissingIsTrailing(args: seq<string>, op: Op)
    requires Segment(args) == Missing(op)
    ensures |args| > 0 && args[|args| - 1] == OpToken(op) && Segment(args[..|args| - 1]).Scanned?
    decreases |args|
  {
    var n := |args|;
    if OpOf(args[0]).Some? && n < 2 {
      assert args[..n - 1] == [];
    } else {
      var first: Seg, rest: seq<string>;
      if OpOf(args[0]).None? {
        first, rest := Word(args[0]), args[1..];
      } else {
        first, rest := Pair(OpOf(args[0]).value, args[1]), args[2..];
      }
      var skip := |args| - |rest|;
      assert Segment(args) == Prepend([first], Segment(rest));
      MissingIsTrailing(rest, op);
      assert args[..n - 1][skip..] == rest[..|rest| - 1];
      assert args[..n - 1][0] == args[0];
      if skip == 2 {
        assert args[..n - 1][1] == args[1];
      }
      assert Segment(args[..n - 1]) == Prepend([first], Segment(rest[..|rest| - 1]));
    }
  }

  lemma {:induction false} TrailingIsMissing(pre: seq<string>, op: Op)
    requires Segment(pre).Scanned?
    ensures Segment(pre + [OpToken(op)]) == Missing(op)
    decreases |pre|
  {
    var args := pre + [OpToken(op)];
    if pre == [] {
      assert args == [OpToken(op)];
    } else {
      assert args[0] == pre[0];
      if OpOf(pre[0]).None? {
        assert args[1..] == pre[1..] + [OpToken(op)];
        TrailingIsMissing(pre[1..], op);
      } else {
        assert |pre| >= 2;
        assert args[1] == pre[1];
        assert args[2..] == pre[2..] + [OpToken(op)];
        TrailingIsMissing(pre[2..], op);
      }
    }
  }

  // ---------------------------------------------------------------------
  // Repeated operators: last target wins, `>>` is sticky

  /** The three target slots: stdin, stdout, stderr. */
  datatype Slot = InSlot | OutSlot | ErrSlot

  function SlotOf(op: Op): Slot {
    match op
    case Truncate => OutSlot
    case Append => OutSlot
    case Input => InSlot
    case ErrorOut => ErrSlot
  }

  function Target(r: Redirect, slot: Slot): Option<string> {
    match slot
    case InSlot => r.stdin
    case OutSlot => r.stdout
    case ErrSlot => r.stderr
  }

  predicate Fills(g: Seg, slot: Slot) {
    g.Pair? && SlotOf(g.op) == slot
  }

  /** The target in a slot is the one given with the last operator for that
      slot; earlier ones are overwritten. */
  lemma {:induction false} LastTargetWins(r: Redirect, segs: seq<Seg>, k: nat, slot: Slot, expand: string -> string)
    requires k < |segs| && Fills(segs[k], slot)
    requires forall j :: k < j < |segs| ==> !Fills(segs[j], slot)
    ensures Target(ApplyAll(r, segs, expand), slot) == Some(expand(segs[k].target))
    decreases |segs|
  {
    if k < |segs| - 1 {
      LastTargetWins(r, segs[..|segs| - 1], k, slot, expand);
    }
  }

  /** A slot no operator fills keeps its value. */
  lemma {:induction false} UnfilledSlotKept(r: Redirect, segs: seq<Seg>, slot: Slot, expand: string -> string)
    requires forall j :: 0 <= j < |segs| ==> !Fills(segs[j], slot)
    ensures Target(ApplyAll(r, segs, expand), slot) == Target(r, slot)
  {
    if segs != [] {
      UnfilledSlotKept(r, segs[..|segs| - 1], slot, expand);
    }
  }

  predicate HasAppend(segs: seq<Seg>) {
    exists k :: 0 <= k < |segs| && segs[k].Pair? && segs[k].op == Append
  }

  /** `append_mode` is set once any `>>` has been seen and is never cleared,
      not even by a later `>` that replaces the target. */
  lemma {:induction false} AppendSticky(r: Redirect, segs: seq<Seg>, expand: string -> string)
    ensures ApplyAll(r, segs, expand).append <==> r.append || HasAppend(segs)
  {
    if segs != [] {
      var init := segs[..|segs| - 1];
      AppendSticky(r, init, expand);
      if HasAppend(init) {
        var k :| 0 <= k < |init| && init[k].Pair? && init[k].op == Append;
        assert segs[k] == init[k];
      }
      if HasAppend(segs) {
        var k :| 0 <= k < |segs| && segs[k].Pair? && segs[k].op == Append;
        if k < |init| {
          assert init[k] == segs[k];
        }
      }
    }
  }
}
