/** File-icon classification: the rule-based `get_file_icon` of
    mikush_shell.py (special names, then `os.path.splitext`) and the
    table-based one of mikush.py (exact name, then last dot-component). */
module Icons {
  import opened Text

  // ---------------------------------------------------------------------
  // mikush_shell.py: NerdIcons and the rule-based classification

  const Folder: string := "\U{f07b}"
  const File: string := "\U{f15b}"
  const LicenseIcon: string := "\U{f0c4}"
  const ReadmeIcon: string := "\U{f7fb}"
  const GitignoreIcon: string := "\U{f1d3}"
  const DockerfileIcon: string := "\U{f308}"
  const MakefileIcon: string := "\U{e673}"
  const PkgbuildIcon: string := "\U{f303}"
  const PythonIcon: string := "\U{e73c}"

  /** The extension table of mikush_shell.py (`icon_map`), in the groups
      it is written in. */
  function CodeExtension(key: string): Option<string> {
    match key
    case ".py" => Some(PythonIcon)
    case ".js" => Some("\U{e74e}")
    case ".ts" => Some("\U{e74e}")
    case ".html" => Some("\U{e736}")
    case ".htm" => Some("\U{e736}")
    case ".css" => Some("\U{e749}")
    case ".scss" => Some("\U{e749}")
    case ".sass" => Some("\U{e749}")
    case ".json" => Some("\U{e60b}")
    case ".md" => Some("\U{e73e}")
    case ".markdown" => Some("\U{e73e}")
    case ".sh" => Some("\U{e795}")
    case ".bash" => Some("\U{e795}")
    case ".zsh" => Some("\U{e795}")
    case ".fish" => Some("\U{e795}")
    case ".c" => Some("\U{e61e}")
    case ".cpp" => Some("\U{e61d}")
    case ".cxx" => Some("\U{e61d}")
    case ".cc" => Some("\U{e61d}")
    case ".rs" => Some("\U{e7a8}")
    case ".go" => Some("\U{e627}")
    case ".java" => Some("\U{e738}")
    case ".php" => Some("\U{e73d}")
    case ".rb" => Some("\U{e739}")
    case _ => None
  }

  function MediaExtension(key: string): Option<string> {
    match key
    case ".png" => Some("\U{f1c5}")
    case ".jpg" => Some("\U{f1c5}")
    case ".jpeg" => Some("\U{f1c5}")
    case ".gif" => Some("\U{f1c5}")
    case ".svg" => Some("\U{f1c5}")
    case ".bmp" => Some("\U{f1c5}")
    case ".webp" => Some("\U{f1c5}")
    case ".mp4" => Some("\U{f1c8}")
    case ".avi" => Some("\U{f1c8}")
    case ".mkv" => Some("\U{f1c8}")
    case ".mov" => Some("\U{f1c8}")
    case ".wmv" => Some("\U{f1c8}")
    case ".mp3" => Some("\U{f1c7}")
    case ".wav" => Some("\U{f1c7}")
    case ".flac" => Some("\U{f1c7}")
    case ".ogg" => Some("\U{f1c7}")
    case ".m4a" => Some("\U{f1c7}")
    case _ => None
  }

  function DataExtension(key: string): Option<string> {
    match key
    case ".pdf" => Some("\U{f1c1}")
    case ".zip" => Some("\U{f1c6}")
    case ".tar" => Some("\U{f1c6}")
    case ".gz" => Some("\U{f1c6}")
    case ".7z" => Some("\U{f1c6}")
    case ".rar" => Some("\U{f1c6}")
    case ".txt" => Some("\U{f15c}")
    case ".log" => Some("\U{f18d}")
    case ".conf" => Some("\U{e615}")
    case ".ini" => Some("\U{e615}")
    case ".cfg" => Some("\U{e615}")
    case ".toml" => Some("\U{e615}")
    case ".yaml" => Some("\U{e615}")
    case ".yml" => Some("\U{e615}")
    case ".db" => Some("\U{f1c0}")
    case ".sqlite" => Some("\U{f1c0}")
    case ".sql" => Some("\U{f1c0}")
    case _ => None
  }

  /** `icon_map.get(ext)`. */
  function ExtensionIcon(ext: string): Option<string> {
    if CodeExtension(ext).Some? then CodeExtension(ext)
    else if MediaExtension(ext).Some? then MediaExtension(ext)
    else DataExtension(ext)
  }

  /** True when `s` has a character other than `.` in `[lo, hi)`. */
  predicate HasNonDot(s: string, lo: nat, hi: nat)
    requires lo <= hi <= |s|
  {
    exists i :: lo <= i < hi && s[i] != '.'
  }

  /** Where the last path component of `p` begins: just after its last
      `/`, or at 0. */
  function ComponentStart(p: string): (k: nat)
    ensures k <= |p| && '/' !in p[k..]
    ensures k == 0 || p[k - 1] == '/'
  {
    match LastIndex(p, '/')
    case None => 0
    case Some(sep) =>
      sep + 1
  }

  /** `os.path.splitext` on POSIX: the extension starts at the last `.` of
      the last path component, unless everything before that dot in the
      component is dots (`.bashrc`, `..x` have no extension). */
  function SplitExt(p: string): (r: (string, string))
    ensures r.0 + r.1 == p
    ensures r.1 != [] <==>
      LastIndex(p, '.').Some? && ComponentStart(p) <= LastIndex(p, '.').value &&
      HasNonDot(p, ComponentStart(p), LastIndex(p, '.').value)
    ensures r.1 != [] ==> r.1 == p[LastIndex(p, '.').value..]
    ensures r.1 != [] ==> r.1[0] == '.' && '.' !in r.1[1..] && '/' !in r.1
  {
    match LastIndex(p, '.')
    case None => (p, [])
    case Some(dot) =>
      var start := ComponentStart(p);
      if start <= dot && HasNonDot(p, start, dot) then
        assert p[..dot] + p[dot..] == p;
        assert forall k :: 0 <= k < |p[dot..][1..]| ==> p[dot..][1..][k] == p[dot + 1 + k];
        (p[..dot], p[dot..])
      else (p, [])
  }

  const ReadmeNames: set<string> := {"readme", "readme.md", "readme.txt"}
  const GitignoreNames: set<string> := {".gitignore", "gitignore"}
  const DockerfileNames: set<string> := {"dockerfile", "dockerfile.dev"}
  const MakefileNames: set<string> := {"makefile", "makefile.am"}

  /** A name that the special-name rules classify before any extension. */
  predicate SpecialName(name: string) {
    IndexOf(name, "license").Some? || name in ReadmeNames || name in GitignoreNames ||
    name in DockerfileNames || name in MakefileNames || name == "pkgbuild"
  }

  /** The icon of a regular file by its lowercased name. */
  function NameIcon(name: string): string {
    var ext := SplitExt(name).1;
    if IndexOf(name, "license").Some? then LicenseIcon
    else if name in ReadmeNames then ReadmeIcon
    else if name in GitignoreNames then GitignoreIcon
    else if name in DockerfileNames then DockerfileIcon
    else if name in MakefileNames then MakefileIcon
    else if name == "pkgbuild" then PkgbuildIcon
    else if ExtensionIcon(ext).Some? then ExtensionIcon(ext).value
    else File
  }

  /** The icon of a directory entry in mikush_shell.py: always one
      character, and the folder icon exactly for directories. */
  function ShellIcon(filename: string, isDir: bool): (r: string)
    ensures |r| == 1
    ensures r == Folder <==> isDir
  {
    if isDir then Folder
    else
      ExtensionIconsOneChar(SplitExt(Lower(filename)).1);
      NameIcon(Lower(filename))
  }

  /** Every icon of the extension table is one character other than the
      folder icon. */
  lemma ExtensionIconsOneChar(ext: string)
    ensures ExtensionIcon(ext).Some? ==> |ExtensionIcon(ext).value| == 1 && ExtensionIcon(ext).value != Folder
  {
  }

  lemma LowerIdempotent(s: string)
    ensures Lower(Lower(s)) == Lower(s)
  {
  }

  /** Classification ignores ASCII case. */
  lemma ShellIconIgnoresCase(filename: string, isDir: bool)
    ensures ShellIcon(filename, isDir) == ShellIcon(Lower(filename), isDir)
  {
    LowerIdempotent(filename);
  }

  /** A name mentioning "license" anywhere gets the license icon, whatever
      its extension. */
  lemma LicenseAnywhere(prefix: string, suffix: string)
    ensures ShellIcon(prefix + "license" + suffix, false) == LicenseIcon
  {
    var name := Lower(prefix + "license" + suffix);
    assert name[|prefix|..|prefix| + 7] == "license";
    assert OccursAt(name, "license", |prefix|);
  }

  /** `splitext` finds the extension after a stem that is not all dots. */
  lemma SplitExtOfStem(stem: string, ext: string)
    requires '/' !in stem && HasNonDot(stem, 0, |stem|)
    requires ext != [] && ext[0] == '.' && '.' !in ext[1..] && '/' !in ext
    ensures SplitExt(stem + ext) == (stem, ext)
  {
    var p := stem + ext;
    assert p[|stem|] == '.';
    forall k | |stem| < k < |p| ensures p[k] != '.' {
      assert p[k] == ext[1..][k - |stem| - 1];
    }
    assert LastIndex(p, '.') == Some(|stem|);
    assert '/' !in p by {
      forall k | 0 <= k < |p| ensures p[k] != '/' {
        if k < |stem| { assert p[k] == stem[k]; } else { assert p[k] == ext[k - |stem|]; }
      }
    }
    var i :| 0 <= i < |stem| && stem[i] != '.';
    assert p[i] == stem[i];
    assert HasNonDot(p, 0, |stem|);
    assert p[..|stem|] == stem && p[|stem|..] == ext;
  }

  /** A lowercase name that no special rule claims is classified by its
      extension alone: the table's icon, or the plain file icon. */
  lemma ExtensionDecides(stem: string, ext: string)
    requires '/' !in stem && HasNonDot(stem, 0, |stem|)
    requires ext != [] && ext[0] == '.' && '.' !in ext[1..] && '/' !in ext
    requires Lower(stem + ext) == stem + ext && !SpecialName(stem + ext)
    ensures ShellIcon(stem + ext, false) == if ExtensionIcon(ext).Some? then ExtensionIcon(ext).value else File
  {
    SplitExtOfStem(stem, ext);
  }

  /** Hidden files have no extension for `splitext`: `.py` is a plain file
      in mikush_shell.py. */
  lemma DotfileHasNoExtension()
    ensures ShellIcon(".py", false) == File
  {
    var name := Lower(".py");
    assert name == ".py";
    assert SplitExt(name).1 == [] by {
      assert LastIndex(name, '.') == Some(0);
      assert !HasNonDot(name, 0, 0);
    }
    assert !SpecialName(name) by {
      assert IndexOf(name, "license").None?;
    }
    assert ExtensionIcon([]).None?;
  }

  // ---------------------------------------------------------------------
  // mikush.py: FileIcons and the table-based classification

  const TableFolder: string := "\U{f115}"
  const ArchiveIcon: string := "\U{f410}"
  const PackageIcon: string := "\U{f187}"

  /** `FileIcons.ICONS` as written, in the groups it is written in. */
  function LanguageIcon(key: string): Option<string> {
    match key
    case ".py" => Some("\U{e73c}")
    case ".js" => Some("\U{e74e}")
    case ".ts" => Some("\U{e628}")
    case ".html" => Some("\U{e736}")
    case ".css" => Some("\U{e749}")
    case ".java" => Some("\U{e204}")
    case ".cpp" => Some("\U{e61d}")
    case ".c" => Some("\U{e61e}")
    case ".h" => Some("\U{f0fd}")
    case ".rs" => Some("\U{e7a8}")
    case ".go" => Some("\U{e626}")
    case ".php" => Some("\U{e73d}")
    case ".rb" => Some("\U{e21e}")
    case ".sh" => Some("\U{f489}")
    case ".bash" => Some("\U{f489}")
    case ".zsh" => Some("\U{f489}")
    case ".fish" => Some("\U{f489}")
    case ".ps1" => Some("\U{f489}")
    case _ => None
  }

  function MoreLanguageIcon(key: string): Option<string> {
    match key
    case ".r" => Some("\U{f25d}")
    case ".swift" => Some("\U{e755}")
    case ".kt" => Some("\U{e634}")
    case ".scala" => Some("\U{e737}")
    case ".clj" => Some("\U{e76a}")
    case ".hs" => Some("\U{e777}")
    case ".elm" => Some("\U{f102}")
    case ".ex" => Some("\U{e62d}")
    case ".exs" => Some("\U{e62d}")
    case ".erl" => Some("\U{e7b1}")
    case ".ml" => Some("\U{e7a7}")
    case ".fs" => Some("\U{e7a7}")
    case ".pas" => Some("\U{f8da}")
    case ".pl" => Some("\U{e769}")
    case ".lua" => Some("\U{e620}")
    case ".vim" => Some("\U{e7c5}")
    case ".sql" => Some("\U{e7c4}")
    case _ => None
  }

  function ImageIcon(key: string): Option<string> {
    match key
    case ".png" => Some("\U{f1c5}")
    case ".jpg" => Some("\U{f1c5}")
    case ".jpeg" => Some("\U{f1c5}")
    case ".gif" => Some("\U{f1c5}")
    case ".bmp" => Some("\U{f1c5}")
    case ".svg" => Some("\U{f1c5}")
    case ".ico" => Some("\U{f1c5}")
    case ".webp" => Some("\U{f1c5}")
    case ".tiff" => Some("\U{f1c5}")
    case ".raw" => Some("\U{f1c5}")
    case _ => None
  }

  function DocumentIcon(key: string): Option<string> {
    match key
    case ".pdf" => Some("\U{f1c1}")
    case ".doc" => Some("\U{f1c2}")
    case ".docx" => Some("\U{f1c2}")
    case ".txt" => Some("\U{f15c}")
    case ".md" => Some("\U{f48a}")
    case ".rtf" => Some("\U{f15c}")
    case ".odt" => Some("\U{f1c2}")
    case ".tex" => Some("\U{e600}")
    case ".epub" => Some("\U{e28b}")
    case ".mobi" => Some("\U{e28b}")
    case _ => None
  }

  function ArchiveEntry(key: string): Option<string> {
    match key
    case ".zip" => Some(ArchiveIcon)
    case ".rar" => Some(ArchiveIcon)
    case ".tar" => Some(ArchiveIcon)
    case ".gz" => Some(ArchiveIcon)
    case ".7z" => Some(ArchiveIcon)
    case ".xz" => Some(ArchiveIcon)
    case ".bz2" => Some(ArchiveIcon)
    case ".tar.gz" => Some(ArchiveIcon)
    case ".tar.xz" => Some(ArchiveIcon)
    case ".deb" => Some(PackageIcon)
    case ".rpm" => Some(PackageIcon)
    case ".pkg.tar.xz" => Some(PackageIcon)
    case _ => None
  }

  function AudioVideoIcon(key: string): Option<string> {
    match key
    case ".mp3" => Some("\U{f001}")
    case ".wav" => Some("\U{f001}")
    case ".flac" => Some("\U{f001}")
    case ".ogg" => Some("\U{f001}")
    case ".m4a" => Some("\U{f001}")
    case ".aac" => Some("\U{f001}")
    case ".wma" => Some("\U{f001}")
    case ".mp4" => Some("\U{f03d}")
    case ".avi" => Some("\U{f03d}")
    case ".mkv" => Some("\U{f03d}")
    case ".mov" => Some("\U{f03d}")
    case ".wmv" => Some("\U{f03d}")
    case ".flv" => Some("\U{f03d}")
    case ".webm" => Some("\U{f03d}")
    case ".m4v" => Some("\U{f03d}")
    case _ => None
  }

  /** The config group; its `.json` entry is the escape for U+F062 followed
      by the digit 6: two characters. */
  function ConfigIcon(key: string): Option<string> {
    match key
    case ".json" => Some("\U{f062}6")
    case ".xml" => Some("\U{f72d}")
    case ".yaml" => Some("\U{f481}")
    case ".yml" => Some("\U{f481}")
    case ".toml" => Some("\U{f481}")
    case ".ini" => Some("\U{f481}")
    case ".cfg" => Some("\U{f481}")
    case ".conf" => Some("\U{f481}")
    case ".config" => Some("\U{f481}")
    case _ => None
  }

  function SpecialIcon(key: string): Option<string> {
    match key
    case "makefile" => Some("\U{f728}")
    case "dockerfile" => Some("\U{f308}")
    case "docker-compose.yml" => Some("\U{f308}")
    case "docker-compose.yaml" => Some("\U{f308}")
    case "vagrantfile" => Some("\U{f26e}")
    case "license" => Some("\U{f48d}")
    case "readme" => Some("\U{f48a}")
    case "changelog" => Some("\U{f48a}")
    case "authors" => Some("\U{f48a}")
    case "contributors" => Some("\U{f48a}")
    case "copying" => Some("\U{f48d}")
    case "install" => Some("\U{f48a}")
    case "news" => Some("\U{f48a}")
    case "todo" => Some("\U{f48a}")
    case "pkgbuild" => Some("\U{f303}")
    case ".gitignore" => Some("\U{e702}")
    case ".gitmodules" => Some("\U{e702}")
    case ".gitattributes" => Some("\U{e702}")
    case ".env" => Some("\U{f462}")
    case ".env.example" => Some("\U{f462}")
    case ".editorconfig" => Some("\U{e615}")
    case ".eslintrc" => Some("\U{e60c}")
    case ".prettierrc" => Some("\U{e60b}")
    case _ => None
  }

  function ProjectIcon(key: string): Option<string> {
    match key
    case "package.json" => Some("\U{e718}")
    case "package-lock.json" => Some("\U{e718}")
    case "yarn.lock" => Some("\U{e718}")
    case "requirements.txt" => Some("\U{e73c}")
    case "setup.py" => Some("\U{e73c}")
    case "pyproject.toml" => Some("\U{e73c}")
    case "pipfile" => Some("\U{e73c}")
    case "cargo.toml" => Some("\U{e7a8}")
    case "cargo.lock" => Some("\U{e7a8}")
    case "gemfile" => Some("\U{e21e}")
    case "gemfile.lock" => Some("\U{e21e}")
    case "composer.json" => Some("\U{e73d}")
    case "composer.lock" => Some("\U{e73d}")
    case "go.mod" => Some("\U{e626}")
    case "go.sum" => Some("\U{e626}")
    case "default" => Some(File)
    case _ => None
  }

  /** `key in FileIcons.ICONS`, with its icon: the groups hold distinct keys. */
  function Icons(key: string): Option<string> {
    if LanguageIcon(key).Some? then LanguageIcon(key)
    else if MoreLanguageIcon(key).Some? then MoreLanguageIcon(key)
    else if ImageIcon(key).Some? then ImageIcon(key)
    else if DocumentIcon(key).Some? then DocumentIcon(key)
    else if ArchiveEntry(key).Some? then ArchiveEntry(key)
    else if AudioVideoIcon(key).Some? then AudioVideoIcon(key)
    else if ConfigIcon(key).Some? then ConfigIcon(key)
    else if SpecialIcon(key).Some? then SpecialIcon(key)
    else ProjectIcon(key)
  }

  /** `'.' + filename.split('.')[-1].lower()`, when the name has a dot:
      a dot followed by the lowered text after the last dot. */
  function LastExt(filename: string): (r: Option<string>)
    ensures r.None? <==> '.' !in filename
    ensures r.Some? ==> r.value == "." + Lower(filename[LastIndex(filename, '.').value + 1..])
    ensures r.Some? ==> |r.value| >= 1 && r.value[0] == '.' && '.' !in r.value[1..]
  {
    match LastIndex(filename, '.')
    case None => None
    case Some(dot) =>
      var tail := Lower(filename[dot + 1..]);
      assert forall k :: 0 <= k < |tail| ==> tail[k] == LowerChar(filename[dot + 1 + k]) != '.';
      Some("." + tail)
  }

  type Table = string -> Option<string>

  /** The keys the classification reads by name. */
  predicate HasCompoundKeys(table: Table) {
    table("default").Some? && table(".gz").Some? && table(".xz").Some? &&
    table(".tar.gz").Some? && table(".tar.xz").Some? && table(".pkg.tar.xz").Some?
  }

  /** `get_file_icon` of mikush.py as written, over a given table: exact
      lowercase name, then last dot-component, then the compound suffixes
      (`.tar.gz`, `.tar.xz`, `.pkg.tar.xz`, in that order), then the
      default. */
  function TableIconAsWritten(table: Table, filename: string, isDir: bool): (r: string)
    requires HasCompoundKeys(table)
    ensures isDir ==> r == TableFolder
    ensures !isDir && table(Lower(filename)).Some? ==> r == table(Lower(filename)).value
    ensures !isDir && table(Lower(filename)).None? && '.' !in filename ==> r == table("default").value
  {
    CompoundHasDot(filename);
    if isDir then TableFolder
    else if table(Lower(filename)).Some? then table(Lower(filename)).value
    else if LastExt(filename).Some? && table(LastExt(filename).value).Some? then table(LastExt(filename).value).value
    else if EndsWith(filename, ".tar.gz") then table(".tar.gz").value
    else if EndsWith(filename, ".tar.xz") then table(".tar.xz").value
    else if EndsWith(filename, ".pkg.tar.xz") then table(".pkg.tar.xz").value
    else table("default").value
  }

  /** The last dot-component of a name ending in `.gz` or `.xz`. */
  lemma LastExtOfCompound(filename: string)
    requires EndsWith(filename, ".gz") || EndsWith(filename, ".xz")
    ensures LastExt(filename) == Some(filename[|filename| - 3..])
  {
    var n := |filename|;
    assert filename[n - 3..] == filename[n - 3..n - 2] + filename[n - 2..];
    assert filename[n - 3..n - 2] == ".";
    assert filename[n - 3] == '.' && filename[n - 2] != '.' && filename[n - 1] != '.';
    assert LastIndex(filename, '.') == Some(n - 3);
    LowerKeeps(filename[n - 2..]);
  }

  /** A name ending in `.tar.gz` or `.tar.xz` has a last dot-component the
      table maps. */
  lemma CompoundLastExtKnown(table: Table, filename: string)
    requires HasCompoundKeys(table)
    ensures EndsWith(filename, ".tar.gz") || EndsWith(filename, ".tar.xz") ==>
      LastExt(filename).Some? && table(LastExt(filename).value).Some?
  {
    if EndsWith(filename, ".tar.gz") || EndsWith(filename, ".tar.xz") {
      var n := |filename|;
      assert filename[n - 3..] == filename[n - 7..][4..];
      LastExtOfCompound(filename);
    }
  }

  /** The third step of the order as written: a name without an exact
      entry is looked up by `'.'` and its lowered last dot-component, and
      gets the default when that has no entry (the compound branches in
      between never decide). */
  lemma TableIconAsWrittenOrder(table: Table, filename: string)
    requires HasCompoundKeys(table)
    ensures table(Lower(filename)).None? && LastExt(filename).Some? ==>
      TableIconAsWritten(table, filename, false) ==
      if table(LastExt(filename).value).Some? then table(LastExt(filename).value).value else table("default").value
  {
    CompoundLastExtKnown(table, filename);
    PackageSuffixIsTarXz(filename);
  }

  /** The compound-suffix branches can never fire: a name ending in
      `.tar.gz` or `.tar.xz` (and so every `.pkg.tar.xz`) has the last
      dot-component `.gz` or `.xz`, which the table maps already. */
  lemma CompoundBranchesUnreachable(table: Table, filename: string)
    requires HasCompoundKeys(table)
    requires EndsWith(filename, ".tar.gz") || EndsWith(filename, ".tar.xz")
    ensures TableIconAsWritten(table, filename, false) ==
      if table(Lower(filename)).Some? then table(Lower(filename)).value
      else if EndsWith(filename, ".tar.gz") then table(".gz").value else table(".xz").value
  {
    var n := |filename|;
    assert filename[n - 3..] == filename[n - 7..][4..];
    if EndsWith(filename, ".tar.gz") {
      assert filename[n - 3..] == ".gz";
    } else {
      assert filename[n - 3..] == ".xz";
    }
    LastExtOfCompound(filename);
  }

  /** The entries of the shipped table that the lemmas below read. */
  lemma IconsKeys()
    ensures HasCompoundKeys(Icons)
    ensures Icons(".xz") == Some(ArchiveIcon) && Icons(".pkg.tar.xz") == Some(PackageIcon)
    ensures Icons(".json") == Some("\U{f062}6") && Icons(".py") == Some(PythonIcon)
  {
    DefaultKey();
    ArchiveKeys();
    assert Icons(".json") == ConfigIcon(".json");
  }

  lemma DefaultKey()
    ensures Icons("default") == Some(File)
  {
    assert LanguageIcon("default").None? && MoreLanguageIcon("default").None?;
    assert ImageIcon("default").None? && DocumentIcon("default").None?;
    assert ArchiveEntry("default").None? && AudioVideoIcon("default").None?;
    assert ConfigIcon("default").None? && SpecialIcon("default").None?;
  }

  lemma ArchiveKeys()
    ensures Icons(".gz") == Some(ArchiveIcon) && Icons(".xz") == Some(ArchiveIcon)
    ensures Icons(".tar.gz") == Some(ArchiveIcon) && Icons(".tar.xz") == Some(ArchiveIcon)
    ensures Icons(".pkg.tar.xz") == Some(PackageIcon)
  {
    assert forall k :: ArchiveEntry(k).Some? ==> Icons(k) == ArchiveEntry(k) by {
      forall k | ArchiveEntry(k).Some? ensures Icons(k) == ArchiveEntry(k) {
        assert LanguageIcon(k).None? && MoreLanguageIcon(k).None?;
        assert ImageIcon(k).None? && DocumentIcon(k).None?;
      }
    }
  }

  lemma FixedKeys()
    ensures HasCompoundKeys(FixedIcons)
  {
    IconsKeys();
    assert FixedIcons("default") == Icons("default") && FixedIcons(".gz") == Icons(".gz");
    assert FixedIcons(".xz") == Icons(".xz") && FixedIcons(".tar.gz") == Icons(".tar.gz");
    assert FixedIcons(".tar.xz") == Icons(".tar.xz") && FixedIcons(".pkg.tar.xz") == Icons(".pkg.tar.xz");
  }

  lemma NotKeys()
    ensures Icons("foo.pkg.tar.xz").None? && Icons("data.json").None?
  {
  }

  /** A package archive gets the icon of `.xz`, not its own entry: with
      the shipped table, the archive icon instead of the package icon. */
  lemma PackageArchiveAsWritten(table: Table, stem: string)
    requires HasCompoundKeys(table) && table(Lower(stem + ".pkg.tar.xz")).None?
    ensures TableIconAsWritten(table, stem + ".pkg.tar.xz", false) == table(".xz").value
  {
    var name := stem + ".pkg.tar.xz";
    assert name[|name| - 7..] == ".tar.xz";
    CompoundBranchesUnreachable(table, name);
  }

  /** The shipped table: `foo.pkg.tar.xz` is shown with the archive icon
      although its entry names the package icon. */
  lemma PackageArchiveExample()
    ensures Icons(".pkg.tar.xz") == Some(PackageIcon)
    ensures TableIconAsWritten(Icons, "foo.pkg.tar.xz", false) == ArchiveIcon
  {
    IconsKeys();
    NotKeys();
    LowerKeeps("foo.pkg.tar.xz");
    assert "foo" + ".pkg.tar.xz" == "foo.pkg.tar.xz";
    PackageArchiveAsWritten(Icons, "foo");
  }

  /** The JSON icon as written is two characters wide. */
  lemma JsonIconAsWritten()
    ensures |TableIconAsWritten(Icons, "data.json", false)| == 2
  {
    IconsKeys();
    NotKeys();
    DataJsonExt();
  }

  lemma DataJsonExt()
    ensures Lower("data.json") == "data.json" && LastExt("data.json") == Some(".json")
    ensures CompoundExt("data.json").None?
  {
    assert LastIndex("data.json", '.') == Some(4);
    assert "data.json"[5..] == "json";
    LowerKeeps("json");
    LowerKeeps("data.json");
    assert "." + "json" == ".json";
  }

  /** The longest compound suffix that ends the name. */
  function CompoundExt(name: string): (r: Option<string>)
    ensures r.Some? ==> r.value in {".pkg.tar.xz", ".tar.gz", ".tar.xz"} && EndsWith(name, r.value)
    ensures r.None? <==> !EndsWith(name, ".tar.gz") && !EndsWith(name, ".tar.xz")
    ensures EndsWith(name, ".pkg.tar.xz") ==> r == Some(".pkg.tar.xz")
  {
    PackageSuffixIsTarXz(name);
    if EndsWith(name, ".pkg.tar.xz") then Some(".pkg.tar.xz")
    else if EndsWith(name, ".tar.gz") then Some(".tar.gz")
    else if EndsWith(name, ".tar.xz") then Some(".tar.xz")
    else None
  }

  /** `get_file_icon` of mikush.py with the compound suffixes checked
      before the last dot-component, longest first. */
  function TableIconOver(table: Table, filename: string, isDir: bool): string
    requires HasCompoundKeys(table)
  {
    var name := Lower(filename);
    if isDir then TableFolder
    else if table(name).Some? then table(name).value
    else if CompoundExt(name).Some? then table(CompoundExt(name).value).value
    else if LastExt(filename).Some? && table(LastExt(filename).value).Some? then table(LastExt(filename).value).value
    else table("default").value
  }

  /** Every package archive, whatever its stem or case, gets its own entry. */
  lemma PackageArchiveFixed(table: Table, stem: string)
    requires HasCompoundKeys(table) && table(Lower(stem + ".pkg.tar.xz")).None?
    ensures TableIconOver(table, stem + ".pkg.tar.xz", false) == table(".pkg.tar.xz").value
  {
    var name := stem + ".pkg.tar.xz";
    assert Lower(name)[|stem|..] == ".pkg.tar.xz";
  }

  /** The fix changes nothing for names without a compound suffix. */
  lemma FixAgreesElsewhere(table: Table, filename: string, isDir: bool)
    requires HasCompoundKeys(table)
    requires !EndsWith(Lower(filename), ".tar.gz") && !EndsWith(Lower(filename), ".tar.xz")
    requires !EndsWith(filename, ".tar.gz") && !EndsWith(filename, ".tar.xz")
    ensures TableIconOver(table, filename, isDir) == TableIconAsWritten(table, filename, isDir)
  {
    PackageSuffixIsTarXz(filename);
    PackageSuffixIsTarXz(Lower(filename));
  }

  lemma PackageSuffixIsTarXz(name: string)
    ensures EndsWith(name, ".pkg.tar.xz") ==> EndsWith(name, ".tar.xz")
  {
    if EndsWith(name, ".pkg.tar.xz") {
      assert name[|name| - 7..] == name[|name| - 11..][4..];
    }
  }

  /** The JSON icon with the code point the table evidently means, U+F0626. */
  const JsonIcon: string := "\U{f0626}"

  /** `ICONS` with the JSON entry written as one character. */
  function FixedIcons(key: string): Option<string> {
    if key == ".json" then Some(JsonIcon) else Icons(key)
  }

  /** The classification with both corrections applied (the one-character
      JSON icon, compound suffixes first); mikush.py itself runs
      `TableIconAsWritten` over `Icons`. */
  function TableIcon(filename: string, isDir: bool): string {
    TableIconOver(FixedIcons, filename, isDir)
  }

  /** Every icon of the corrected table is one character. */
  lemma OneCharIcons(key: string)
    requires FixedIcons(key).Some?
    ensures |FixedIcons(key).value| == 1
  {
    assert forall k :: LanguageIcon(k).Some? ==> |LanguageIcon(k).value| == 1;
    assert forall k :: MoreLanguageIcon(k).Some? ==> |MoreLanguageIcon(k).value| == 1;
    assert forall k :: ImageIcon(k).Some? ==> |ImageIcon(k).value| == 1;
    assert forall k :: DocumentIcon(k).Some? ==> |DocumentIcon(k).value| == 1;
    assert forall k :: ArchiveEntry(k).Some? ==> |ArchiveEntry(k).value| == 1;
    assert forall k :: AudioVideoIcon(k).Some? ==> |AudioVideoIcon(k).value| == 1;
    assert forall k :: ConfigIcon(k).Some? && k != ".json" ==> |ConfigIcon(k).value| == 1;
    assert forall k :: SpecialIcon(k).Some? ==> |SpecialIcon(k).value| == 1;
    assert forall k :: ProjectIcon(k).Some? ==> |ProjectIcon(k).value| == 1;
  }

  /** With the corrected table the JSON icon is the one character U+F0626. */
  lemma JsonIconFixed()
    ensures TableIcon("data.json", false) == JsonIcon && |JsonIcon| == 1
  {
    IconsKeys();
    NotKeys();
    DataJsonExt();
  }

  lemma CompoundHasDot(name: string)
    ensures EndsWith(name, ".tar.gz") || EndsWith(name, ".tar.xz") ==> '.' in name
  {
    if EndsWith(name, ".tar.gz") || EndsWith(name, ".tar.xz") {
      assert name[|name| - 3] == '.';
    }
  }

  /** Lookup order of the corrected classification: a directory is a
      folder; then the exact lowered name; then the longest compound
      suffix; then `'.'` and the lowered last dot-component; then the
      default. */
  lemma TableIconOrder(filename: string, isDir: bool)
    ensures isDir ==> TableIcon(filename, isDir) == TableFolder
    ensures !isDir && FixedIcons(Lower(filename)).Some? ==> TableIcon(filename, isDir) == FixedIcons(Lower(filename)).value
    ensures !isDir && FixedIcons(Lower(filename)).None? && EndsWith(Lower(filename), ".pkg.tar.xz") ==>
      TableIcon(filename, isDir) == PackageIcon
    ensures !isDir && FixedIcons(Lower(filename)).None? && !EndsWith(Lower(filename), ".pkg.tar.xz") && CompoundExt(Lower(filename)).Some? ==>
      TableIcon(filename, isDir) == ArchiveIcon
    ensures !isDir && FixedIcons(Lower(filename)).None? && CompoundExt(Lower(filename)).None? && '.' in filename ==>
      TableIcon(filename, isDir) ==
      var ext := "." + Lower(filename[LastIndex(filename, '.').value + 1..]);
      if FixedIcons(ext).Some? then FixedIcons(ext).value else File
    ensures !isDir && FixedIcons(Lower(filename)).None? && '.' !in filename ==> TableIcon(filename, isDir) == File
  {
    FixedKeys();
    ArchiveKeys();
    assert FixedIcons("default") == Some(File) by { DefaultKey(); }
    if '.' !in filename {
      assert '.' !in Lower(filename);
      CompoundHasDot(Lower(filename));
    }
  }

  /** The two files disagree on a hidden file named like an extension:
      mikush.py finds `.py` as an exact key, mikush_shell.py sees no
      extension. */
  lemma DotfileIconsDiffer()
    ensures TableIconAsWritten(Icons, ".py", false) == PythonIcon
    ensures ShellIcon(".py", false) == File
  {
    IconsKeys();
    assert Lower(".py") == ".py";
    DotfileHasNoExtension();
  }
}
