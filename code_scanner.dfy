/**
 * The source scanner: a walk over a directory tree that prunes vendored and
 * build directories, classification of files by extension, per-file line
 * metrics (blank, comment, code) with a per-language comment state machine,
 * the repository-wide metric totals, and text-level anti-pattern checks.
 *
 * The file system is a parameter: the tree as a `Dir` value and the readable
 * files' lines as a map from path to lines (a path missing from the map is a
 * file whose read raises an `OSError`, which the scan skips).
 */
module CodeScanner {
  import opened Wrappers
  import opened Strings
  import opened Collections
  import opened Files

  const LanguageMap: map<string, string> := map[
    ".py" := "python", ".js" := "javascript", ".jsx" := "javascript",
    ".ts" := "typescript", ".tsx" := "typescript", ".java" := "java",
    ".cs" := "csharp", ".go" := "go", ".kt" := "kotlin", ".sql" := "sql",
    ".rb" := "ruby", ".rs" := "rust", ".cpp" := "cpp", ".c" := "c",
    ".h" := "c", ".cob" := "cobol", ".cbl" := "cobol"
  ]

  const ExcludeDirs: set<string> := {
    "node_modules", ".git", "__pycache__", ".venv", "venv", "env",
    "build", "dist", ".next", ".cache", "target", "bin", "obj",
    ".idea", ".vscode", ".gradle"
  }

  // ---------------------------------------------------------------------------
  // File names

  /** The position of the last `c` in `s`, if any. */
  function LastIndexOf(s: string, c: char): (r: Option<nat>)
    ensures r.None? ==> c !in s
    ensures r.Some? ==> r.value < |s| && s[r.value] == c && c !in s[r.value + 1..]
  {
    if s == [] then None
    else if s[|s| - 1] == c then Some(|s| - 1)
    else
      var r := LastIndexOf(s[..|s| - 1], c);
      if r.Some? then
        assert s[r.value + 1..] == s[..|s| - 1][r.value + 1..] + [s[|s| - 1]];
        r
      else r
  }

  /**
   * `os.path.splitext(name)[1]` for a bare file name: the text from the last
   * "." on, unless every character before that dot is itself a dot (".bashrc"
   * has no extension).
   */
  function Extension(name: string): (ext: string)
    ensures ext == [] || (ext[0] == '.' && '.' !in ext[1..] && EndsWith(name, ext) && |ext| < |name|)
  {
    match LastIndexOf(name, '.')
    case None => []
    case Some(i) =>
      if exists j :: 0 <= j < i && name[j] != '.' then
        assert name[i..][1..] == name[i + 1..];
        name[i..]
      else []
  }

  /** The language a file is scanned as, looked up by its lower-cased extension. */
  function LanguageOf(name: string): Option<string> {
    var ext := Lower(Extension(name));
    if ext in LanguageMap then Some(LanguageMap[ext]) else None
  }

  /** A name with a non-dot stem and a last dot has the text from that dot as its extension. */
  lemma ExtensionOfSplit(stem: string, suffix: string)
    requires '.' !in suffix
    requires exists j :: 0 <= j < |stem| && stem[j] != '.'
    ensures Extension(stem + "." + suffix) == "." + suffix
  {
    var name := stem + "." + suffix;
    assert name[|stem|] == '.';
    assert forall k | |stem| < k < |name| :: name[k] == suffix[k - |stem| - 1];
    var r := LastIndexOf(name, '.');
    assert r.Some? && r.value <= |stem|;
    assert r.value == |stem|;
    var j :| 0 <= j < |stem| && stem[j] != '.';
    assert name[j] != '.';
    assert name[|stem|..] == "." + suffix;
  }

  /** A name without a dot, or whose only dot leads it (a hidden file), has no extension. */
  lemma NoExtension(suffix: string)
    requires '.' !in suffix
    ensures Extension(suffix) == []
    ensures Extension("." + suffix) == []
  {
    var hidden := "." + suffix;
    assert forall k | 0 < k < |hidden| :: hidden[k] == suffix[k - 1];
    assert LastIndexOf(hidden, '.') == Some(0);
  }

  // ---------------------------------------------------------------------------
  // The walk

  /** A directory: its name, its files and its subdirectories, in listing order. */
  datatype Dir = Dir(name: string, files: seq<string>, subdirs: seq<Dir>)

  /** A file met by the walk: the subdirectory names leading to it from the top, and its name. */
  datatype Entry = Entry(dirs: seq<string>, filename: string)

  /** Entries in the order of a top-down walk: a directory's files, then its kept subdirectories in order. */
  function Walk(prefix: seq<string>, d: Dir): (r: seq<Entry>)
    ensures forall e | e in r :: |prefix| <= |e.dirs| && e.dirs[..|prefix|] == prefix
    ensures forall e, k | e in r && |prefix| <= k < |e.dirs| :: e.dirs[k] !in ExcludeDirs
    decreases d, 1
  {
    seq(|d.files|, i requires 0 <= i < |d.files| => Entry(prefix, d.files[i])) + WalkSubdirs(prefix, d.subdirs)
  }

  function WalkSubdirs(prefix: seq<string>, ds: seq<Dir>): (r: seq<Entry>)
    ensures forall e | e in r :: |prefix| <= |e.dirs| && e.dirs[..|prefix|] == prefix
    ensures forall e, k | e in r && |prefix| <= k < |e.dirs| :: e.dirs[k] !in ExcludeDirs
    decreases ds, 0
  {
    if ds == [] then []
    else
      var here := if ds[0].name in ExcludeDirs then [] else Walk(prefix + [ds[0].name], ds[0]);
      assert forall e | e in here :: e.dirs[..|prefix|] == prefix by {
        forall e | e in here
          ensures e.dirs[..|prefix|] == prefix
        {
          assert e.dirs[..|prefix|] == e.dirs[..|prefix| + 1][..|prefix|];
        }
      }
      here + WalkSubdirs(prefix, ds[1..])
  }

  /** `os.path.join` over several components. */
  function JoinAll(base: string, parts: seq<string>): string {
    if parts == [] then base else PathJoin(JoinAll(base, parts[..|parts| - 1]), parts[|parts| - 1])
  }

  // ---------------------------------------------------------------------------
  // Comment counting

  /** The comment syntax a language is scanned with; languages without a branch count nothing. */
  datatype CommentStyle = HashStyle | CStyle | SqlStyle | NoComments

  function StyleOf(language: string): CommentStyle {
    if language == "python" || language == "ruby" then HashStyle
    else if language in ["javascript", "typescript", "java", "csharp", "go", "kotlin", "cpp", "c", "rust"] then CStyle
    else if language == "sql" then SqlStyle
    else NoComments
  }

  /** One line, compared once stripped: whether it counts as a comment, and the block flag after it. */
  function CommentStep(style: CommentStyle, line: string, inBlock: bool): (bool, bool) {
    var stripped := Strip(line);
    match style
    case HashStyle =>
      if StartsWith(stripped, "#") then (true, inBlock)
      else if StartsWith(stripped, "\"\"\"") || StartsWith(stripped, "'''") then (true, !inBlock)
      else (inBlock, inBlock)
    case CStyle =>
      if StartsWith(stripped, "//") then (true, inBlock)
      else if Contains(stripped, "/*") then (true, true)
      else if Contains(stripped, "*/") then (true, false)
      else (inBlock, inBlock)
    case SqlStyle => (StartsWith(stripped, "--"), inBlock)
    case NoComments => (false, inBlock)
  }

  /** The per-line comment flags of a scan from the top, and the block flag at the end. */
  datatype CommentScan = CommentScan(flags: seq<bool>, inBlock: bool)

  function ScanLines(lines: seq<string>, style: CommentStyle): (r: CommentScan)
    ensures |r.flags| == |lines|
  {
    if lines == [] then CommentScan([], false)
    else
      var prev := ScanLines(lines[..|lines| - 1], style);
      var (c, b) := CommentStep(style, lines[|lines| - 1], prev.inBlock);
      CommentScan(prev.flags + [c], b)
  }

  function TrueCount(flags: seq<bool>): (n: nat)
    ensures n <= |flags|
  {
    if flags == [] then 0 else TrueCount(flags[..|flags| - 1]) + (if flags[|flags| - 1] then 1 else 0)
  }

  /** The number of lines counted as comments. */
  function CommentCount(lines: seq<string>, language: string): (n: nat)
    ensures n <= |lines|
  {
    TrueCount(ScanLines(lines, StyleOf(language)).flags)
  }

  /** Counts comment lines line by line, carrying the block flag. */
  method CountComments(lines: seq<string>, language: string) returns (count: nat)
    ensures count == CommentCount(lines, language)
  {
    var style := StyleOf(language);
    count := 0;
    var inBlock := false;
    var i := 0;
    while i < |lines|
      invariant 0 <= i <= |lines|
      invariant count == TrueCount(ScanLines(lines[..i], style).flags)
      invariant inBlock == ScanLines(lines[..i], style).inBlock
    {
      assert lines[..i + 1][..i] == lines[..i];
      var (isComment, nextBlock) := CommentStep(style, lines[i], inBlock);
      if isComment {
        count := count + 1;
      }
      inBlock := nextBlock;
      i := i + 1;
    }
    assert lines[..i] == lines;
  }

  /** A language without a comment branch (COBOL, for one) never counts a comment. */
  lemma {:induction false} NoCommentsCountZero(lines: seq<string>, language: string)
    requires StyleOf(language) == NoComments
    ensures CommentCount(lines, language) == 0
  {
    NoCommentFlags(lines);
  }

  lemma {:induction false} NoCommentFlags(lines: seq<string>)
    ensures TrueCount(ScanLines(lines, NoComments).flags) == 0
  {
    if lines != [] {
      NoCommentFlags(lines[..|lines| - 1]);
    }
  }

  predicate IsSqlComment(line: string) {
    StartsWith(Strip(line), "--")
  }

  /** SQL counts exactly the lines that start with "--" once stripped; there are no block comments. */
  lemma SqlCommentCount(lines: seq<string>)
    ensures CommentCount(lines, "sql") == Count(lines, IsSqlComment)
  {
    assert StyleOf("sql") == SqlStyle by {
      assert "sql" != "python" && "sql" != "ruby";
      assert "sql" !in ["javascript", "typescript", "java", "csharp", "go", "kotlin", "cpp", "c", "rust"];
    }
    SqlFlags(lines);
  }

  lemma {:induction false} SqlFlags(lines: seq<string>)
    ensures TrueCount(ScanLines(lines, SqlStyle).flags) == |Filter(lines, IsSqlComment)|
  {
    if lines != [] {
      SqlFlags(lines[..|lines| - 1]);
    }
  }

  /** A text that neither starts nor ends with white space is its own `strip()`. */
  lemma StripUnspaced(s: string)
    requires s != [] && !IsSpace(s[0]) && !IsSpace(s[|s| - 1])
    ensures Strip(s) == s
  {
  }

  /** The scan of two lines: the second line sees the block flag the first one leaves. */
  lemma ScanTwoLines(a: string, b: string, style: CommentStyle)
    ensures ScanLines([a, b], style) == CommentScan(
      [CommentStep(style, a, false).0, CommentStep(style, b, CommentStep(style, a, false).1).0],
      CommentStep(style, b, CommentStep(style, a, false).1).1)
  {
    var (c0, b0) := CommentStep(style, a, false);
    var (c1, b1) := CommentStep(style, b, b0);
    assert [a][..0] == [];
    assert ScanLines([a], style) == CommentScan([c0], b0);
    assert [a, b][..1] == [a];
    assert ScanLines([a, b], style) == CommentScan([c0] + [c1], b1);
  }

  /**
   * A line starting with a triple quote toggles the block flag even when it
   * also ends with one, so after a one-line docstring the block is open and
   * the next line counts as a comment whatever it holds.
   */
  lemma OneLineDocstringLeavesBlockOpen(doc: string, next: string)
    requires StartsWith(Strip(doc), "\"\"\"")
    ensures ScanLines([doc], HashStyle).inBlock
    ensures ScanLines([doc, next], HashStyle).flags == [true, true]
  {
    assert Strip(doc)[0] == '"';
    assert !StartsWith(Strip(doc), "#");
    ScanTwoLines(doc, next, HashStyle);
    assert [doc][..0] == [];
  }

  /**
   * A line containing "/*" enters the block even when "*/" closes it on the
   * same line, so the next line counts as a comment whatever it holds.
   */
  lemma SameLineBlockCommentStaysOpen(line: string, next: string)
    requires !StartsWith(Strip(line), "//") && Contains(Strip(line), "/*")
    ensures ScanLines([line], CStyle).inBlock
    ensures ScanLines([line, next], CStyle).flags == [true, true]
  {
    ScanTwoLines(line, next, CStyle);
    assert [line][..0] == [];
  }

  // ---------------------------------------------------------------------------
  // Blank and code lines

  predicate IsBlankLine(line: string) {
    Strip(line) == []
  }

  function BlankCount(lines: seq<string>): (n: nat)
    ensures n <= |lines|
  {
    Count(lines, IsBlankLine)
  }

  /** The code-line figure as the scanner computes it: lines minus blank lines minus comment lines. */
  function CodeLinesAsWritten(lines: seq<string>, language: string): int {
    |lines| - BlankCount(lines) - CommentCount(lines, language)
  }

  /** A blank line inside a docstring is both blank and a comment, so the figure goes below zero. */
  lemma CodeLinesAsWrittenNegative()
    ensures CodeLinesAsWritten(["\"\"\"", "", "\"\"\""], "python") == -1
  {
    DocstringDelimiterLine();
    BlankLineInsideDocstring("\"\"\"", "");
  }

  lemma DocstringDelimiterLine()
    ensures StartsWith(Strip("\"\"\""), "\"\"\"") && IsBlankLine("")
  {
    StripUnspaced("\"\"\"");
  }

  /** Any docstring delimiter line, a blank line and the delimiter again give -1 code lines. */
  lemma BlankLineInsideDocstring(q: string, e: string)
    requires StartsWith(Strip(q), "\"\"\"") && IsBlankLine(e)
    ensures CodeLinesAsWritten([q, e, q], "python") == -1
  {
    assert Strip(q)[0] == '"';
    assert !StartsWith(Strip(q), "#");
    assert !StartsWith(Strip(e), "#") && !StartsWith(Strip(e), "\"\"\"") && !StartsWith(Strip(e), "'''");
    assert StyleOf("python") == HashStyle;
    BlankLineInsideBlock(q, e, "python");
  }

  /** An opening line, a blank line and a closing line, all three counted as comments, give -1. */
  lemma BlankLineInsideBlock(opener: string, blank: string, language: string)
    requires CommentStep(StyleOf(language), opener, false) == (true, true)
    requires CommentStep(StyleOf(language), blank, true) == (true, true)
    requires CommentStep(StyleOf(language), opener, true).0
    requires IsBlankLine(blank) && !IsBlankLine(opener)
    ensures CodeLinesAsWritten([opener, blank, opener], language) == -1
  {
    var style := StyleOf(language);
    ScanTwoLines(opener, blank, style);
    ScanThirdLine(opener, blank, opener, style);
    var flags := ScanLines([opener, blank, opener], style).flags;
    assert flags == [true, true, true];
    TrueCountThree(flags);
    BlankThree(opener, blank, opener);
  }

  lemma TrueCountThree(flags: seq<bool>)
    requires flags == [true, true, true]
    ensures TrueCount(flags) == 3
  {
    assert flags[..2] == [true, true];
    assert flags[..2][..1] == [true];
    assert TrueCount([true]) == 1 by {
      assert [true][..0] == [];
    }
    assert TrueCount(flags[..2]) == 2;
  }

  lemma ScanThirdLine(a: string, b: string, c: string, style: CommentStyle)
    ensures ScanLines([a, b, c], style).flags ==
      ScanLines([a, b], style).flags + [CommentStep(style, c, ScanLines([a, b], style).inBlock).0]
  {
    assert [a, b, c][..2] == [a, b];
  }

  lemma BlankThree(a: string, b: string, c: string)
    ensures BlankCount([a, b, c]) ==
      (if IsBlankLine(a) then 1 else 0) + (if IsBlankLine(b) then 1 else 0) + (if IsBlankLine(c) then 1 else 0)
  {
    assert [a, b, c][..2] == [a, b];
    assert [a, b][..1] == [a];
    assert [a][..0] == [];
    assert Filter([a], IsBlankLine) == (if IsBlankLine(a) then [a] else []);
    assert Filter([a, b], IsBlankLine) == Filter([a], IsBlankLine) + (if IsBlankLine(b) then [b] else []);
    assert Filter([a, b, c], IsBlankLine) == Filter([a, b], IsBlankLine) + (if IsBlankLine(c) then [c] else []);
  }

  /** Lines that are neither blank nor counted as a comment. */
  function CodeCount(lines: seq<string>, flags: seq<bool>): (n: nat)
    requires |flags| == |lines|
    ensures n <= |lines|
  {
    if lines == [] then 0
    else
      var k := |lines| - 1;
      CodeCount(lines[..k], flags[..k]) + (if !IsBlankLine(lines[k]) && !flags[k] then 1 else 0)
  }

  /** Lines that are both blank and counted as a comment (the ones the scanner subtracts twice). */
  function BlankCommentCount(lines: seq<string>, flags: seq<bool>): (n: nat)
    requires |flags| == |lines|
  {
    if lines == [] then 0
    else
      var k := |lines| - 1;
      BlankCommentCount(lines[..k], flags[..k]) + (if IsBlankLine(lines[k]) && flags[k] then 1 else 0)
  }

  /**
   * The code-line figure with each line classified once, as the scanner
   * evidently intends; `FileInfo.codeLines` holds `CodeLinesAsWritten`.
   */
  function CodeLines(lines: seq<string>, language: string): (n: nat)
    ensures n <= |lines|
  {
    CodeCount(lines, ScanLines(lines, StyleOf(language)).flags)
  }

  /**
   * Every line is code, blank or comment, and only blank comment lines are
   * both; so the corrected figure differs from the scanner's exactly by the
   * doubly subtracted lines, and the two agree when there are none.
   */
  lemma CodeLinesCorrected(lines: seq<string>, language: string)
    ensures CodeLines(lines, language) ==
      CodeLinesAsWritten(lines, language) + BlankCommentCount(lines, ScanLines(lines, StyleOf(language)).flags)
    ensures CodeLines(lines, language) >= CodeLinesAsWritten(lines, language)
  {
    LineClasses(lines, ScanLines(lines, StyleOf(language)).flags);
  }

  lemma {:induction false} LineClasses(lines: seq<string>, flags: seq<bool>)
    requires |flags| == |lines|
    ensures CodeCount(lines, flags) + BlankCount(lines) + TrueCount(flags) == |lines| + BlankCommentCount(lines, flags)
  {
    if lines != [] {
      var k := |lines| - 1;
      LineClasses(lines[..k], flags[..k]);
      assert flags[..k] == flags[..|flags| - 1];
    }
  }

  // ---------------------------------------------------------------------------
  // Per-file records and repository metrics

  datatype FileInfo = FileInfo(
    path: string, relativePath: string, filename: string, language: string, extension: string,
    loc: nat, codeLines: int, blankLines: nat, commentLines: nat)

  /**
   * The record for one walked file: None when its extension is not scanned
   * or it cannot be read. Its code-line figure is the scanner's own, so the
   * three line classes always add up to the line count, even when that
   * makes the code lines negative.
   */
  function FileRecord(directory: string, contents: map<string, seq<string>>, e: Entry): (r: Option<FileInfo>)
    ensures r.Some? <==>
      Lower(Extension(e.filename)) in LanguageMap && JoinAll(directory, e.dirs + [e.filename]) in contents
    ensures r.Some? ==> r.value.codeLines + r.value.blankLines + r.value.commentLines == r.value.loc
  {
    var ext := Lower(Extension(e.filename));
    if ext !in LanguageMap then None
    else
      var path := JoinAll(directory, e.dirs + [e.filename]);
      if path !in contents then None
      else
        var lines := contents[path];
        var language := LanguageMap[ext];
        Some(FileInfo(path, Join(e.dirs + [e.filename], "/"), e.filename, language, ext,
          |lines|, CodeLinesAsWritten(lines, language), BlankCount(lines), CommentCount(lines, language)))
  }

  /** A scanned Python file holding `"""`, a blank line and `"""` is recorded with -1 code lines. */
  lemma RecordedCodeLinesNegative(directory: string, e: Entry)
    requires Lower(Extension(e.filename)) == ".py"
    ensures var path := JoinAll(directory, e.dirs + [e.filename]);
      var r := FileRecord(directory, map[path := ["\"\"\"", "", "\"\"\""]], e);
      r.Some? && r.value.codeLines == -1
  {
    var path := JoinAll(directory, e.dirs + [e.filename]);
    var lines := ["\"\"\"", "", "\"\"\""];
    var contents := map[path := lines];
    assert path in contents && contents[path] == lines;
    RecordedPythonCodeLines(directory, contents, e);
    CodeLinesAsWrittenNegative();
  }

  /** A readable Python file's record carries the scanner's own code-line figure over the lines read. */
  lemma RecordedPythonCodeLines(directory: string, contents: map<string, seq<string>>, e: Entry)
    requires Lower(Extension(e.filename)) == ".py" && JoinAll(directory, e.dirs + [e.filename]) in contents
    ensures FileRecord(directory, contents, e).Some?
    ensures FileRecord(directory, contents, e).value.codeLines ==
      CodeLinesAsWritten(contents[JoinAll(directory, e.dirs + [e.filename])], "python")
  {
    PythonExtension();
  }

  lemma PythonExtension()
    ensures ".py" in LanguageMap && LanguageMap[".py"] == "python"
  {
  }

  function RecordOf(directory: string, contents: map<string, seq<string>>): Entry -> Option<FileInfo> {
    e => FileRecord(directory, contents, e)
  }

  /** The scanned files of a tree, in walk order. */
  function ScannedFiles(directory: string, tree: Dir, contents: map<string, seq<string>>): seq<FileInfo> {
    FilterMap(Walk([], tree), RecordOf(directory, contents))
  }

  datatype Metrics = Metrics(
    totalFiles: nat, totalLoc: int, languages: ODict<string, nat>,
    largestPath: string, largestLoc: nat, fileTypes: ODict<string, nat>)

  function LocOf(f: FileInfo): int { f.loc }
  function LanguageField(f: FileInfo): string { f.language }
  function ExtensionField(f: FileInfo): string { f.extension }

  /** The running largest file: replaced only by a file strictly longer than the current one. */
  function Largest(files: seq<FileInfo>): (r: (string, nat)) {
    if files == [] then ("", 0)
    else
      var prev := Largest(files[..|files| - 1]);
      var f := files[|files| - 1];
      if f.loc > prev.1 then (f.path, f.loc) else prev
  }

  /** The totals over the records: one file each, and no file longer than the largest. */
  function MetricsOf(files: seq<FileInfo>): (r: Metrics)
    ensures r.totalFiles == |files|
    ensures forall i | 0 <= i < |files| :: files[i].loc <= r.largestLoc
    ensures r.largestLoc == 0 ==> r.largestPath == ""
  {
    LargestIsFirstMaximum(files);
    var big := Largest(files);
    Metrics(|files|, SumOf(files, LocOf), CountBy(files, LanguageField), big.0, big.1, CountBy(files, ExtensionField))
  }

  /** The largest file is the first one of maximal length; with no non-empty file it stays ("", 0). */
  lemma {:induction false} LargestIsFirstMaximum(files: seq<FileInfo>)
    ensures forall i | 0 <= i < |files| :: files[i].loc <= Largest(files).1
    ensures Largest(files).1 == 0 ==> Largest(files).0 == ""
    ensures Largest(files).1 > 0 ==> exists i | 0 <= i < |files| ::
      files[i].loc == Largest(files).1 && files[i].path == Largest(files).0 &&
      forall j | 0 <= j < i :: files[j].loc < Largest(files).1
  {
    if files != [] {
      var init := files[..|files| - 1];
      LargestIsFirstMaximum(init);
      assert forall i | 0 <= i < |init| :: init[i] == files[i];
      var prev := Largest(init);
      var f := files[|files| - 1];
      if f.loc > prev.1 {
        assert forall j | 0 <= j < |files| - 1 :: files[j].loc < f.loc;
      } else if prev.1 > 0 {
        var i :| 0 <= i < |init| && init[i].loc == prev.1 && init[i].path == prev.0 &&
          forall j | 0 <= j < i :: init[j].loc < prev.1;
        assert files[i].loc == prev.1;
      }
    }
  }

  /** The per-language and per-extension counts each add up to the number of files. */
  lemma MetricsCountsAddUp(files: seq<FileInfo>)
    ensures SumOver(MetricsOf(files).languages.keys, MetricsOf(files).languages.entries, NatValue) == MetricsOf(files).totalFiles
    ensures SumOver(MetricsOf(files).fileTypes.keys, MetricsOf(files).fileTypes.entries, NatValue) == MetricsOf(files).totalFiles
  {
    CountBySum(files, LanguageField);
    CountBySum(files, ExtensionField);
  }

  /** A record describes a readable file whose extension is scanned, under that extension's language. */
  lemma FileRecordFacts(directory: string, contents: map<string, seq<string>>, e: Entry)
    requires FileRecord(directory, contents, e).Some?
    ensures var f := FileRecord(directory, contents, e).value;
      f.extension in LanguageMap && f.language == LanguageMap[f.extension] && f.filename == e.filename &&
      f.extension == Lower(Extension(f.filename)) && f.path in contents && f.loc == |contents[f.path]|
  {
  }

  /** Every recorded file has a scanned extension and a readable path; its language is its extension's. */
  lemma ScannedFilesFacts(directory: string, tree: Dir, contents: map<string, seq<string>>)
    ensures forall f | f in ScannedFiles(directory, tree, contents) ::
      f.extension in LanguageMap && f.language == LanguageMap[f.extension] &&
      f.extension == Lower(Extension(f.filename)) && f.path in contents && f.loc == |contents[f.path]|
  {
    var files := ScannedFiles(directory, tree, contents);
    forall f | f in files
      ensures f.extension in LanguageMap && f.language == LanguageMap[f.extension]
      ensures f.extension == Lower(Extension(f.filename)) && f.path in contents && f.loc == |contents[f.path]|
    {
      var k :| 0 <= k < |files| && files[k] == f;
      ScannedFileAt(directory, tree, contents, k);
    }
  }

  lemma ScannedFileAt(directory: string, tree: Dir, contents: map<string, seq<string>>, k: nat)
    requires k < |ScannedFiles(directory, tree, contents)|
    ensures var f := ScannedFiles(directory, tree, contents)[k];
      f.extension in LanguageMap && f.language == LanguageMap[f.extension] &&
      f.extension == Lower(Extension(f.filename)) && f.path in contents && f.loc == |contents[f.path]|
  {
    var entries := Walk([], tree);
    var idx := FilterMapIndices(entries, RecordOf(directory, contents));
    var e := entries[idx[k]];
    assert FileRecord(directory, contents, e) == Some(ScannedFiles(directory, tree, contents)[k]);
    FileRecordFacts(directory, contents, e);
  }

  /** Exactly one record per walked entry that yields one: none is dropped or duplicated. */
  lemma ScannedFilesCount(directory: string, tree: Dir, contents: map<string, seq<string>>)
    ensures |ScannedFiles(directory, tree, contents)| ==
      |set i | 0 <= i < |Walk([], tree)| && RecordOf(directory, contents)(Walk([], tree)[i]).Some?|
  {
    var entries := Walk([], tree);
    var idx := FilterMapIndices(entries, RecordOf(directory, contents));
    var chosen := set i | 0 <= i < |entries| && RecordOf(directory, contents)(entries[i]).Some?;
    assert chosen == set k | 0 <= k < |idx| :: idx[k];
    IncreasingCard(idx);
  }

  lemma {:induction false} IncreasingCard(idx: seq<nat>)
    requires forall k, l | 0 <= k < l < |idx| :: idx[k] < idx[l]
    ensures |set k | 0 <= k < |idx| :: idx[k]| == |idx|
  {
    if idx != [] {
      var init := idx[..|idx| - 1];
      IncreasingCard(init);
      var last := idx[|idx| - 1];
      assert (set k | 0 <= k < |idx| :: idx[k]) == (set k | 0 <= k < |init| :: init[k]) + {last};
      assert last !in (set k | 0 <= k < |init| :: init[k]);
    }
  }

  /** Builds one file's record the way the scan loop does, counting comments line by line. */
  method ReadFile(directory: string, contents: map<string, seq<string>>, e: Entry) returns (info: Option<FileInfo>)
    ensures info == FileRecord(directory, contents, e)
  {
    var ext := Lower(Extension(e.filename));
    if ext !in LanguageMap {
      return None;
    }
    var language := LanguageMap[ext];
    var path := JoinAll(directory, e.dirs + [e.filename]);
    if path !in contents {
      return None;
    }
    var lines := contents[path];
    var loc := |lines|;
    var blank := BlankCount(lines);
    var comments := CountComments(lines, language);
    var codeLines := loc - blank - comments;
    assert codeLines == CodeLinesAsWritten(lines, language);
    assert FileRecord(directory, contents, e) == Some(FileInfo(path, Join(e.dirs + [e.filename], "/"), e.filename,
      language, ext, loc, codeLines, blank, comments));
    info := Some(FileInfo(path, Join(e.dirs + [e.filename], "/"), e.filename, language, ext,
      loc, codeLines, blank, comments));
  }

  /** Folds one more file into the running metrics. */
  function AddFile(m: Metrics, f: FileInfo): Metrics {
    Metrics(m.totalFiles + 1, m.totalLoc + f.loc,
      m.languages.Put(f.language, m.languages.Get(f.language, 0) + 1),
      if f.loc > m.largestLoc then f.path else m.largestPath,
      if f.loc > m.largestLoc then f.loc else m.largestLoc,
      m.fileTypes.Put(f.extension, m.fileTypes.Get(f.extension, 0) + 1))
  }

  /** Folding one more file into the metrics of a list gives the metrics of the longer list. */
  lemma {:induction false} AddFileStep(files: seq<FileInfo>, f: FileInfo)
    ensures AddFile(MetricsOf(files), f) == MetricsOf(files + [f])
  {
    var m := MetricsOf(files);
    assert MetricsOf(files + [f]).languages == AddFile(m, f).languages by {
      CountBySnoc(files, f, LanguageField);
    }
    assert MetricsOf(files + [f]).fileTypes == AddFile(m, f).fileTypes by {
      CountBySnoc(files, f, ExtensionField);
    }
    SumOfSnoc(files, f, LocOf);
    LargestSnoc(files, f);
  }

  lemma {:induction false} LargestSnoc(files: seq<FileInfo>, f: FileInfo)
    ensures Largest(files + [f]) == if f.loc > Largest(files).1 then (f.path, f.loc) else Largest(files)
  {
    assert (files + [f])[..|files|] == files;
  }

  /**
   * The scan: every walked file with a scanned extension that can be read
   * becomes a record, and the metrics are the totals over those records.
   */
  method ScanDirectory(directory: string, tree: Dir, contents: map<string, seq<string>>)
    returns (files: seq<FileInfo>, metrics: Metrics)
    ensures files == ScannedFiles(directory, tree, contents)
    ensures metrics == MetricsOf(files)
  {
    files, metrics := ScanEntries(directory, Walk([], tree), contents);
  }

  /** The loop over the walked files, appending records and updating the metrics. */
  method ScanEntries(directory: string, entries: seq<Entry>, contents: map<string, seq<string>>)
    returns (files: seq<FileInfo>, metrics: Metrics)
    ensures files == FilterMap(entries, RecordOf(directory, contents))
    ensures metrics == MetricsOf(files)
  {
    files := [];
    metrics := Metrics(0, 0, EmptyDict(), "", 0, EmptyDict());
    var i := 0;
    while i < |entries|
      invariant 0 <= i <= |entries|
      invariant files == FilterMap(entries[..i], RecordOf(directory, contents))
      invariant metrics == MetricsOf(files)
    {
      var info := ReadFile(directory, contents, entries[i]);
      ScanStep(directory, entries, contents, i);
      if info.Some? {
        AddFileStep(files, info.value);
        metrics := AddFile(metrics, info.value);
        files := files + [info.value];
      }
      i := i + 1;
    }
    assert entries[..i] == entries;
  }

  /** One more walked entry adds its record, if it has one, to the records so far. */
  lemma ScanStep(directory: string, entries: seq<Entry>, contents: map<string, seq<string>>, i: nat)
    requires i < |entries|
    ensures FilterMap(entries[..i + 1], RecordOf(directory, contents)) ==
      FilterMap(entries[..i], RecordOf(directory, contents))
      + (if FileRecord(directory, contents, entries[i]).Some? then [FileRecord(directory, contents, entries[i]).value] else [])
  {
    TakeSnoc(entries, i);
    FilterMapSnoc(entries[..i], entries[i], RecordOf(directory, contents));
  }

  // ---------------------------------------------------------------------------
  // Anti-patterns

  datatype Pattern = Pattern(kind: string, name: string, severity: string, description: string)

  /** A function definition found by the Python parser: its name and first and last line. */
  datatype FunctionSpan = FunctionSpan(name: string, lineno: int, endLineno: int)

  const SecretPatterns: seq<string> := ["password =", "api_key =", "secret =", "token ="]

  const SqlInjection := Pattern("security", "Potential SQL Injection", "critical",
    "String concatenation detected in SQL query construction")

  predicate SqlInjectionRisk(source: string, language: string) {
    (language == "python" || language == "java" || language == "javascript")
    && Contains(source, "execute(") && Contains(source, "+")
    && (Contains(source, "SELECT") || Contains(source, "INSERT"))
  }

  predicate HasQuote(source: string) {
    Contains(source, "'") || Contains(source, "\"")
  }

  predicate SecretMatches(source: string, sp: string) {
    Contains(Lower(source), sp) && HasQuote(source)
  }

  function SecretFinding(source: string): string -> Option<Pattern> {
    sp => if SecretMatches(source, sp)
      then Some(Pattern("security", "Potential Hardcoded Secret", "high",
        "Possible hardcoded credential detected: " + Strip(sp)))
      else None
  }

  function OversizedFinding(fn: FunctionSpan): Option<Pattern> {
    var len := fn.endLineno - fn.lineno;
    if len > 100 then
      Some(Pattern("maintainability", "Oversized Function", "medium",
        "Function " + fn.name + " is " + IntToString(len) + " lines long"))
    else None
  }

  /**
   * The findings for the text of one file, in the order the checks run: SQL
   * injection, one per matching secret pattern, then oversized Python
   * functions (`functions` is None when the source does not parse). Only
   * Python files get maintainability findings.
   */
  function AntiPatterns(src: string, language: string, functions: Option<seq<FunctionSpan>>): (r: seq<Pattern>)
    ensures forall p | p in r :: p.kind == "security" || (p.kind == "maintainability" && language == "python")
    ensures |r| <= 1 + |SecretPatterns| + (if functions.Some? then |functions.value| else 0)
  {
    SecretKinds(src);
    OversizedKinds(language, functions);
    SqlFindings(src, language) + FilterMap(SecretPatterns, SecretFinding(src)) + OversizedFindings(language, functions)
  }

  function SqlFindings(src: string, language: string): seq<Pattern> {
    if SqlInjectionRisk(src, language) then [SqlInjection] else []
  }

  function OversizedFindings(language: string, functions: Option<seq<FunctionSpan>>): seq<Pattern> {
    if language == "python" && functions.Some? then FilterMap(functions.value, OversizedFinding) else []
  }

  lemma SecretKinds(src: string)
    ensures forall p | p in FilterMap(SecretPatterns, SecretFinding(src)) :: p.kind == "security"
  {
    var found := FilterMap(SecretPatterns, SecretFinding(src));
    var idx := FilterMapIndices(SecretPatterns, SecretFinding(src));
    forall k | 0 <= k < |found|
      ensures found[k].kind == "security"
    {
      assert SecretFinding(src)(SecretPatterns[idx[k]]) == Some(found[k]);
    }
  }

  lemma OversizedKinds(language: string, functions: Option<seq<FunctionSpan>>)
    ensures forall p | p in OversizedFindings(language, functions) :: p.kind == "maintainability" && language == "python"
  {
    if language == "python" && functions.Some? {
      var found := FilterMap(functions.value, OversizedFinding);
      var idx := FilterMapIndices(functions.value, OversizedFinding);
      forall k | 0 <= k < |found|
        ensures found[k].kind == "maintainability"
      {
        assert OversizedFinding(functions.value[idx[k]]) == Some(found[k]);
      }
    }
  }

  /**
   * `detect_anti_patterns`: runs the checks in order, appending each
   * finding. A missing file has none; any other `OSError` raised by `open`
   * escapes.
   */
  method DetectAntiPatterns(read: FileRead, language: string, functions: Option<seq<FunctionSpan>>)
    returns (r: Result<seq<Pattern>, string>)
    ensures read.NotFound? ==> r == Ok([])
    ensures read.OsError? ==> r == Err(read.name)
    ensures read.Text? ==> r == Ok(AntiPatterns(read.text, language, functions))
  {
    if read.NotFound? {
      return Ok([]);
    } else if read.OsError? {
      return Err(read.name);
    }
    var patterns := [];
    var src := read.text;
    if SqlInjectionRisk(src, language) {
      patterns := patterns + [SqlInjection];
    }
    assert patterns == SqlFindings(src, language);
    var secrets := SecretChecks(src);
    patterns := patterns + secrets;
    var oversized := [];
    if language == "python" && functions.Some? {
      oversized := OversizedChecks(functions.value);
    }
    assert oversized == OversizedFindings(language, functions);
    patterns := patterns + oversized;
    r := Ok(patterns);
  }

  /** One finding per secret pattern that occurs in the lower-cased source of a file with a quote. */
  method SecretChecks(src: string) returns (found: seq<Pattern>)
    ensures found == FilterMap(SecretPatterns, SecretFinding(src))
  {
    found := [];
    var i := 0;
    while i < |SecretPatterns|
      invariant 0 <= i <= |SecretPatterns|
      invariant found == FilterMap(SecretPatterns[..i], SecretFinding(src))
    {
      var sp := SecretPatterns[i];
      assert SecretPatterns[..i + 1] == SecretPatterns[..i] + [sp];
      FilterMapSnoc(SecretPatterns[..i], sp, SecretFinding(src));
      if Contains(Lower(src), sp) && HasQuote(src) {
        found := found + [Pattern("security", "Potential Hardcoded Secret", "high",
          "Possible hardcoded credential detected: " + Strip(sp))];
      }
      i := i + 1;
    }
    assert SecretPatterns[..i] == SecretPatterns;
  }

  /** One finding per function more than 100 lines long, in the parser's order. */
  method OversizedChecks(fns: seq<FunctionSpan>) returns (found: seq<Pattern>)
    ensures found == FilterMap(fns, OversizedFinding)
  {
    found := [];
    var j := 0;
    while j < |fns|
      invariant 0 <= j <= |fns|
      invariant found == FilterMap(fns[..j], OversizedFinding)
    {
      assert fns[..j + 1] == fns[..j] + [fns[j]];
      FilterMapSnoc(fns[..j], fns[j], OversizedFinding);
      var len := fns[j].endLineno - fns[j].lineno;
      if len > 100 {
        found := found + [Pattern("maintainability", "Oversized Function", "medium",
          "Function " + fns[j].name + " is " + IntToString(len) + " lines long")];
      }
      j := j + 1;
    }
    assert fns[..j] == fns;
  }

  /** One secret finding per secret pattern that occurs (case-insensitively), and none in a file without quotes. */
  lemma SecretFindingCount(src: string)
    ensures |FilterMap(SecretPatterns, SecretFinding(src))| ==
      if HasQuote(src) then |Filter(SecretPatterns, sp => Contains(Lower(src), sp))| else 0
  {
    if HasQuote(src) {
      FilterMapLength(SecretPatterns, SecretFinding(src), sp => Contains(Lower(src), sp));
    } else {
      FilterMapLength(SecretPatterns, SecretFinding(src), sp => false);
      assert Filter(SecretPatterns, sp => false) == [] by {
        FilterNone(SecretPatterns, sp => false);
      }
    }
  }

  /** The SQL-injection finding is reported, first, exactly when the SQL-injection condition holds. */
  lemma SqlInjectionReported(src: string, language: string, functions: Option<seq<FunctionSpan>>)
    ensures SqlInjection in AntiPatterns(src, language, functions) <==> SqlInjectionRisk(src, language)
    ensures SqlInjectionRisk(src, language) ==> AntiPatterns(src, language, functions)[0] == SqlInjection
  {
    var secrets := FilterMap(SecretPatterns, SecretFinding(src));
    var idx := FilterMapIndices(SecretPatterns, SecretFinding(src));
    assert SqlInjection !in secrets by {
      forall k | 0 <= k < |secrets|
        ensures secrets[k] != SqlInjection
      {
        assert SecretFinding(src)(SecretPatterns[idx[k]]) == Some(secrets[k]);
      }
    }
    if language == "python" && functions.Some? {
      var big := FilterMap(functions.value, OversizedFinding);
      var idx2 := FilterMapIndices(functions.value, OversizedFinding);
      assert SqlInjection !in big by {
        forall k | 0 <= k < |big|
          ensures big[k] != SqlInjection
        {
          assert OversizedFinding(functions.value[idx2[k]]) == Some(big[k]);
        }
      }
    }
  }
}
