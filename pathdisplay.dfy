/** The prompt's working-directory display in mikush.py
    (`get_current_path_display`): the home directory at the front of the
    path is shown as `~`. The current directory and the home directory come
    from the OS and are parameters here. */
module PathDisplay {
  import opened Text

  /** The display as written: a plain string-prefix test, then the first
      occurrence of `home` replaced by `~`. */
  function DisplayAsWritten(cwd: string, home: string): (r: string)
    ensures StartsWith(cwd, home) ==> r == "~" + cwd[|home|..]
    ensures !StartsWith(cwd, home) ==> r == cwd
  {
    if StartsWith(cwd, home) then
      ReplaceFirstAtStart(cwd, home, "~");
      ReplaceFirst(cwd, home, "~")
    else cwd
  }

  /** Reading a displayed path back: a leading `~` that forms a whole
      component stands for the home directory. */
  function ExpandTilde(shown: string, home: string): string {
    if shown == "~" || StartsWith(shown, "~/") then home + shown[1..] else shown
  }

  /** The prefix test is not component-aware: a sibling directory whose
      name extends the home directory's is displayed as a garbled `~` path
      that no longer reads back as the directory. */
  lemma SiblingOfHomeAsWritten()
    ensures DisplayAsWritten("/home/alice", "/home/al") == "~ice"
    ensures ExpandTilde(DisplayAsWritten("/home/alice", "/home/al"), "/home/al") != "/home/alice"
  {
    assert "/home/alice"[..|"/home/al"|] == "/home/al";
    assert "/home/alice"[|"/home/al"|..] == "ice";
    assert !StartsWith("~ice", "~/") by {
      assert "~ice"[..2] != "~/" by { assert "~ice"[..2][1] == 'i'; }
    }
    assert "~ice" != "/home/alice" by { assert "~ice"[0] != "/home/alice"[0]; }
  }

  /** Whether `home` is `cwd` or one of its ancestors, component-wise. */
  predicate UnderHome(cwd: string, home: string) {
    cwd == home || StartsWith(cwd, home + "/")
  }

  /** The display with a component-aware prefix test. */
  function Display(cwd: string, home: string): (r: string)
    ensures UnderHome(cwd, home) ==> r == "~" + cwd[|home|..]
    ensures !UnderHome(cwd, home) ==> r == cwd
  {
    if UnderHome(cwd, home) then "~" + cwd[|home|..] else cwd
  }

  /** Every absolute working directory reads back from its display. */
  lemma DisplayRoundTrip(cwd: string, home: string)
    requires StartsWith(cwd, "/")
    ensures ExpandTilde(Display(cwd, home), home) == cwd
  {
    if UnderHome(cwd, home) {
      var rest := cwd[|home|..];
      assert cwd == home + rest;
      if rest != [] {
        assert rest[0] == (home + "/")[|home|];
        assert ("~" + rest)[..2] == "~/";
      }
      assert ("~" + rest)[1..] == rest;
    } else {
      assert cwd[0] == '/';
      assert !StartsWith(cwd, "~/");
    }
  }

  /** The correction only stops the garbled case: whenever the prefix ends
      at a component boundary both displays agree. */
  lemma DisplayAgreesOnComponents(cwd: string, home: string)
    requires !StartsWith(cwd, home) || UnderHome(cwd, home)
    ensures Display(cwd, home) == DisplayAsWritten(cwd, home)
  {
    if UnderHome(cwd, home) && cwd != home {
      assert cwd[..|home|] == (home + "/")[..|home|];
    }
  }
}
