/**
 * The parser front end of the engine (`engine/services/ast_parser.py`):
 * dispatch by language, the records it emits for functions, classes,
 * imports and whole files, and cyclomatic complexity over a Python syntax
 * tree. The tree and the regular-expression matches are inputs, and so is
 * the outcome of opening the file. Every parser catches `FileNotFoundError`
 * only (and the Python one `SyntaxError`), so any other `OSError` escapes it:
 * each parser returns `Ok(records)` or `Err(name of the escaping error)`.
 */
module AstParser {
  import opened Wrappers
  import opened Strings
  import opened Collections
  import opened Files

  /** A parsed code element, the dictionary the parsers emit; `None` is a key the record lacks. */
  datatype ParsedNode = ParsedNode(
    id: string,
    labelText: string,
    kind: string,
    file: string,
    language: string,
    lineStart: Option<int>,
    lineEnd: Option<int>,
    calls: Option<seq<string>>,
    args: Option<seq<string>>,
    complexity: Option<int>,
    decorators: Option<seq<string>>,
    methods: Option<seq<string>>,
    bases: Option<seq<string>>,
    loc: Option<nat>)

  /** What a parser returns: its records, or the name of the `OSError` that escapes it. */
  type Parsed = Result<seq<ParsedNode>, string>

  // ---------------------------------------------------------------------------
  // An abstract Python syntax tree

  /** An expression naming something: `Name.id`, `Attribute.attr`, or anything else (shown by its text). */
  datatype NameRef = NameId(id: string) | AttributeRef(attr: string) | OtherRef(text: string)

  /** The node kinds the parser distinguishes; every other kind is `OtherKind`. */
  /**
   * `endLine` is `end_lineno`, `None` where the node lacks the attribute;
   * `args` are the positional parameters' names, `decoratorRefs` the
   * decorator expressions.
   */
  datatype PyKind =
    | FunctionDef(name: string, line: int, endLine: Option<int>, args: seq<string>, decoratorRefs: seq<NameRef>)  // also `AsyncFunctionDef`
    | ClassDef(name: string, line: int, endLine: Option<int>, baseRefs: seq<NameRef>)
    | Import(names: seq<string>)
    | ImportFrom(moduleName: Option<string>, names: seq<string>)
    | Call(func: NameRef)
    | If | While | For | ExceptHandler
    | BoolOp(valueCount: nat)
    | OtherKind

  datatype PyNode = PyNode(kind: PyKind, children: seq<PyNode>)

  function Size(n: PyNode): nat {
    1 + ForestSize(n.children)
  }

  function ForestSize(f: seq<PyNode>): nat {
    if f == [] then 0 else Size(f[0]) + ForestSize(f[1..])
  }

  lemma {:induction false} ForestSizeConcat(a: seq<PyNode>, b: seq<PyNode>)
    ensures ForestSize(a + b) == ForestSize(a) + ForestSize(b)
  {
    if a == [] {
      assert a + b == b;
    } else {
      assert (a + b)[0] == a[0] && (a + b)[1..] == a[1..] + b;
      ForestSizeConcat(a[1..], b);
    }
  }

  /** `ast.walk`: breadth-first, each node followed later by its children. */
  function WalkFrom(todo: seq<PyNode>): seq<PyNode>
    decreases ForestSize(todo)
  {
    if todo == [] then []
    else
      ForestSizeConcat(todo[1..], todo[0].children);
      assert ForestSize(todo) == Size(todo[0]) + ForestSize(todo[1..]);
      [todo[0]] + WalkFrom(todo[1..] + todo[0].children)
  }

  function Walk(n: PyNode): (r: seq<PyNode>)
    ensures |r| >= 1 && r[0] == n
  {
    WalkFrom([n])
  }

  // ---------------------------------------------------------------------------
  // Cyclomatic complexity

  /** What one node adds: 1 per branch point, `len(values) - 1` per boolean operator. */
  function Own(k: PyNode): int {
    match k.kind
    case If => 1
    case While => 1
    case For => 1
    case ExceptHandler => 1
    case BoolOp(v) => v - 1
    case _ => 0
  }

  /** The contributions of a tree, added up structurally. */
  function TreeScore(n: PyNode): int {
    Own(n) + ForestScore(n.children)
  }

  function ForestScore(f: seq<PyNode>): int {
    if f == [] then 0 else TreeScore(f[0]) + ForestScore(f[1..])
  }

  lemma {:induction false} ForestScoreConcat(a: seq<PyNode>, b: seq<PyNode>)
    ensures ForestScore(a + b) == ForestScore(a) + ForestScore(b)
  {
    if a == [] {
      assert a + b == b;
    } else {
      assert (a + b)[0] == a[0] && (a + b)[1..] == a[1..] + b;
      ForestScoreConcat(a[1..], b);
    }
  }

  /** Adding up the contributions in walk order gives the structural score. */
  lemma {:induction false} WalkScore(todo: seq<PyNode>)
    ensures SumOf(WalkFrom(todo), Own) == ForestScore(todo)
    decreases ForestSize(todo)
  {
    if todo != [] {
      var rest := todo[1..] + todo[0].children;
      ForestSizeConcat(todo[1..], todo[0].children);
      assert ForestSize(todo) == Size(todo[0]) + ForestSize(todo[1..]);
      WalkScore(rest);
      SumOfConcat([todo[0]], WalkFrom(rest), Own);
      assert SumOf([todo[0]], Own) == Own(todo[0]) by {
        assert [todo[0]][..0] == [];
      }
      ForestScoreConcat(todo[1..], todo[0].children);
    }
  }

  /** Well-formed trees: every boolean operator joins at least two values, as Python's do. */
  ghost predicate AstOk(n: PyNode) {
    (n.kind.BoolOp? ==> n.kind.valueCount >= 2) && forall c | c in n.children :: AstOk(c)
  }

  lemma {:induction false} TreeScoreNonNegative(n: PyNode)
    requires AstOk(n)
    ensures TreeScore(n) >= 0
  {
    ForestScoreNonNegative(n.children);
  }

  lemma {:induction false} ForestScoreNonNegative(f: seq<PyNode>)
    requires forall c | c in f :: AstOk(c)
    ensures ForestScore(f) >= 0
  {
    if f != [] {
      TreeScoreNonNegative(f[0]);
      ForestScoreNonNegative(f[1..]);
    }
  }

  /** `_estimate_complexity`: 1 plus the contribution of every node the walk visits. */
  method EstimateComplexity(node: PyNode) returns (complexity: int)
    ensures complexity == 1 + TreeScore(node)
    ensures AstOk(node) ==> complexity >= 1
  {
    var walk := Walk(node);
    complexity := 1;
    var i := 0;
    while i < |walk|
      invariant 0 <= i <= |walk|
      invariant complexity == 1 + SumOf(walk[..i], Own)
    {
      assert walk[..i + 1][..i] == walk[..i];
      complexity := complexity + Own(walk[i]);
      i := i + 1;
    }
    assert walk[..i] == walk;
    WalkScore([node]);
    assert ForestScore([node]) == TreeScore(node) by {
      assert [node][1..] == [];
    }
    if AstOk(node) {
      TreeScoreNonNegative(node);
    }
  }

  // ---------------------------------------------------------------------------
  // Python

  /** `_get_name` / `_get_decorator_name`: the id, else the attribute, else the text. */
  function NameOf(r: NameRef): string {
    match r
    case NameId(id) => id
    case AttributeRef(attr) => attr
    case OtherRef(text) => text
  }

  /** The names of a list of expressions (base classes or decorators), in order. */
  function NamesOf(refs: seq<NameRef>): (r: seq<string>)
    ensures |r| == |refs| && forall i | 0 <= i < |refs| :: r[i] == NameOf(refs[i])
  {
    seq(|refs|, i requires 0 <= i < |refs| => NameOf(refs[i]))
  }

  /** The names called in the walk of a function: a `Name` callee by id, an `Attribute` callee by attribute. */
  function CallsIn(walk: seq<PyNode>): (r: seq<string>)
    ensures |r| <= |walk|
  {
    if walk == [] then []
    else
      var k := walk[|walk| - 1];
      CallsIn(walk[..|walk| - 1])
      + (if k.kind.Call? && !k.kind.func.OtherRef? then [NameOf(k.kind.func)] else [])
  }

  /** The loop of `_parse_python` that collects the names a function calls. */
  method CollectCalls(node: PyNode) returns (calls: seq<string>)
    ensures calls == CallsIn(Walk(node))
  {
    var walk := Walk(node);
    calls := [];
    var i := 0;
    while i < |walk|
      invariant 0 <= i <= |walk|
      invariant calls == CallsIn(walk[..i])
    {
      assert walk[..i + 1][..i] == walk[..i];
      var child := walk[i];
      if child.kind.Call? {
        match child.kind.func
        case NameId(id) => calls := calls + [id];
        case AttributeRef(attr) => calls := calls + [attr];
        case OtherRef(_) =>
      }
      i := i + 1;
    }
    assert walk[..i] == walk;
  }

  /**
   * The `methods` of a class: the name of every function definition its walk
   * visits, in walk order, so functions nested in methods are listed too.
   */
  function MethodsIn(walk: seq<PyNode>): (r: seq<string>)
    ensures |r| <= |walk|
    ensures forall m | m in r :: exists k | k in walk :: k.kind.FunctionDef? && k.kind.name == m
    ensures forall k | k in walk && k.kind.FunctionDef? :: k.kind.name in r
  {
    if walk == [] then []
    else
      var init := walk[..|walk| - 1];
      var k := walk[|walk| - 1];
      assert walk == init + [k];
      MethodsIn(init) + (if k.kind.FunctionDef? then [k.kind.name] else [])
  }

  /** The comprehension of `_parse_python` that lists a class's methods. */
  method CollectMethods(node: PyNode) returns (methods: seq<string>)
    ensures methods == MethodsIn(Walk(node))
  {
    var walk := Walk(node);
    methods := [];
    var i := 0;
    while i < |walk|
      invariant 0 <= i <= |walk|
      invariant methods == MethodsIn(walk[..i])
    {
      assert walk[..i + 1][..i] == walk[..i];
      if walk[i].kind.FunctionDef? {
        methods := methods + [walk[i].kind.name];
      }
      i := i + 1;
    }
    assert walk[..i] == walk;
  }

  /** The id of a function or class: `"<filepath>:<name>"`. */
  function ElementId(filepath: string, name: string): (r: string)
    ensures StartsWith(r, filepath + ":") && EndsWith(r, name)
  {
    filepath + ":" + name
  }

  /** The label of a function: `"<name>()"`. */
  function FunctionLabel(name: string): (r: string)
    ensures StartsWith(r, name) && EndsWith(r, "()") && |r| == |name| + 2
  {
    name + "()"
  }

  /** The id of an import: `"<filepath>:import:<label>"`. */
  function ImportId(filepath: string, importLabel: string): (r: string)
    ensures StartsWith(r, filepath + ":import:") && EndsWith(r, importLabel)
  {
    filepath + ":import:" + importLabel
  }

  /** The label of a `from module import name` alias: `"module.name"`, with a missing module as "". */
  function FromImportLabel(moduleName: Option<string>, name: string): (r: string)
    ensures moduleName.None? ==> r == "." + name
    ensures EndsWith(r, "." + name)
  {
    moduleName.GetOr("") + "." + name
  }

  /** Removing "()" from a function label gives back the name (names hold no parentheses). */
  lemma {:induction false} FunctionLabelStrip(name: string)
    requires '(' !in name
    ensures ReplaceAll(FunctionLabel(name), "()", "") == name
  {
    if name == [] {
      assert FunctionLabel(name) == "()";
      assert ReplaceAll("()", "()", "") == "" + ReplaceAll("", "()", "");
    } else {
      var s := FunctionLabel(name);
      assert s[..2] != "()" by {
        assert s[0] == name[0];
      }
      assert s[1..] == FunctionLabel(name[1..]);
      FunctionLabelStrip(name[1..]);
    }
  }

  /** The record of a Python function. */
  function PyFunctionNode(filepath: string, name: string, line: int, lineEnd: int, calls: seq<string>,
                          args: seq<string>, complexity: int, decorators: seq<string>): ParsedNode {
    ParsedNode(ElementId(filepath, name), FunctionLabel(name), "function", filepath, "python",
               Some(line), Some(lineEnd), Some(calls), Some(args), Some(complexity), Some(decorators),
               None, None, None)
  }

  /** The record of a Python class. */
  function PyClassNode(filepath: string, name: string, line: int, lineEnd: int, methods: seq<string>,
                       bases: seq<string>): ParsedNode {
    ParsedNode(ElementId(filepath, name), name, "class", filepath, "python",
               Some(line), Some(lineEnd), None, None, None, None, Some(methods), Some(bases), None)
  }

  /** The record of a class found by a pattern: name, line and language only. */
  function ClassNode(filepath: string, name: string, line: int, language: string): ParsedNode {
    ParsedNode(ElementId(filepath, name), name, "class", filepath, language,
               Some(line), None, None, None, None, None, None, None, None)
  }

  function ImportNode(filepath: string, importLabel: string, language: string): ParsedNode {
    ParsedNode(ImportId(filepath, importLabel), importLabel, "import", filepath, language,
               None, None, None, None, None, None, None, None, None)
  }

  /** The import records of one import statement, one per alias, in order. */
  function ImportNodes(filepath: string, labels: seq<string>, language: string): (r: seq<ParsedNode>)
    ensures |r| == |labels|
    ensures forall i | 0 <= i < |r| :: r[i] == ImportNode(filepath, labels[i], language)
  {
    seq(|labels|, i requires 0 <= i < |labels| => ImportNode(filepath, labels[i], language))
  }

  /** How many records a walked node yields: one per definition, one per imported alias. */
  function RecordCount(k: PyNode): int {
    match k.kind
    case FunctionDef(_, _, _, _, _) => 1
    case ClassDef(_, _, _, _) => 1
    case Import(names) => |names|
    case ImportFrom(_, names) => |names|
    case _ => 0
  }

  /** The records `_parse_python` emits for one walked node. */
  function PythonNodesFor(filepath: string, k: PyNode): (r: seq<ParsedNode>)
    ensures |r| == RecordCount(k)
  {
    match k.kind
    case FunctionDef(name, line, endLine, args, decoratorRefs) =>
      [PyFunctionNode(filepath, name, line, endLine.GetOr(line), CallsIn(Walk(k)), args,
                      1 + TreeScore(k), NamesOf(decoratorRefs))]
    case ClassDef(name, line, endLine, baseRefs) =>
      [PyClassNode(filepath, name, line, endLine.GetOr(line), MethodsIn(Walk(k)), NamesOf(baseRefs))]
    case Import(names) =>
      ImportNodes(filepath, names, "python")
    case ImportFrom(moduleName, names) =>
      ImportNodes(filepath, seq(|names|, i requires 0 <= i < |names| => FromImportLabel(moduleName, names[i])), "python")
    case _ => []
  }

  /** The records for a prefix of the walk, in walk order: one per definition and one per imported alias. */
  function PythonNodes(filepath: string, walk: seq<PyNode>): (r: seq<ParsedNode>)
    ensures |r| == SumOf(walk, RecordCount)
  {
    if walk == [] then []
    else PythonNodes(filepath, walk[..|walk| - 1]) + PythonNodesFor(filepath, walk[|walk| - 1])
  }

  /**
   * Every element of a Python file has the file as owner, the language
   * "python" and the formatted id; a function record carries its end line,
   * calls, arguments, complexity and decorators, a class record its end
   * line, methods and bases, and an import record none of these.
   */
  lemma {:induction false} PythonNodesShape(filepath: string, walk: seq<PyNode>)
    ensures forall n | n in PythonNodes(filepath, walk) ::
      n.file == filepath && n.language == "python"
      && (n.kind == "function" ==>
            EndsWith(n.labelText, "()") && n.id == filepath + ":" + n.labelText[..|n.labelText| - 2]
            && n.lineEnd.Some? && n.calls.Some? && n.args.Some? && n.complexity.Some? && n.decorators.Some?
            && n.methods.None? && n.bases.None?)
      && (n.kind == "class" ==>
            n.id == filepath + ":" + n.labelText && n.lineEnd.Some? && n.methods.Some? && n.bases.Some?
            && n.calls.None? && n.args.None? && n.decorators.None?)
      && (n.kind == "import" ==>
            n.id == filepath + ":import:" + n.labelText && n.lineStart.None? && n.lineEnd.None?)
      && (n.kind in {"function", "class", "import"})
  {
    if walk != [] {
      PythonNodesShape(filepath, walk[..|walk| - 1]);
      var k := walk[|walk| - 1];
      match k.kind
      case FunctionDef(name, _, _, _, _) =>
        assert FunctionLabel(name)[..|FunctionLabel(name)| - 2] == name;
      case _ =>
    }
  }

  /** The body of the loop of `_parse_python`: the records for one walked node. */
  method EmitPython(filepath: string, node: PyNode) returns (nodes: seq<ParsedNode>)
    ensures nodes == PythonNodesFor(filepath, node)
  {
    nodes := [];
    match node.kind {
      case FunctionDef(name, line, endLine, args, decoratorRefs) =>
        var calls := CollectCalls(node);
        var complexity := EstimateComplexity(node);
        var lineEnd := if endLine.Some? then endLine.value else line;
        nodes := [PyFunctionNode(filepath, name, line, lineEnd, calls, args, complexity, NamesOf(decoratorRefs))];
      case ClassDef(name, line, endLine, baseRefs) =>
        var methods := CollectMethods(node);
        var lineEnd := if endLine.Some? then endLine.value else line;
        nodes := [PyClassNode(filepath, name, line, lineEnd, methods, NamesOf(baseRefs))];
      case Import(names) =>
        var j := 0;
        while j < |names|
          invariant 0 <= j <= |names|
          invariant nodes == ImportNodes(filepath, names[..j], "python")
        {
          nodes := nodes + [ImportNode(filepath, names[j], "python")];
          j := j + 1;
        }
        assert names[..j] == names;
      case ImportFrom(moduleName, names) =>
        var labels := seq(|names|, j requires 0 <= j < |names| => FromImportLabel(moduleName, names[j]));
        var j := 0;
        while j < |names|
          invariant 0 <= j <= |names|
          invariant nodes == ImportNodes(filepath, labels[..j], "python")
        {
          nodes := nodes + [ImportNode(filepath, moduleName.GetOr("") + "." + names[j], "python")];
          j := j + 1;
        }
        assert labels[..j] == labels;
      case _ =>
    }
  }

  /**
   * `_parse_python`: `tree` is the parsed module, `None` for a syntax error.
   * A missing file or a syntax error gives no record; any other `OSError`
   * raised by `open` escapes.
   */
  method ParsePython(filepath: string, read: FileRead, tree: Option<PyNode>) returns (r: Parsed)
    ensures read.NotFound? ==> r == Ok([])
    ensures read.OsError? ==> r == Err(read.name)
    ensures read.Text? && tree.None? ==> r == Ok([])
    ensures read.Text? && tree.Some? ==> r == Ok(PythonNodes(filepath, Walk(tree.value)))
  {
    if read.NotFound? || (read.Text? && tree.None?) {
      return Ok([]);
    } else if read.OsError? {
      return Err(read.name);
    }
    var nodes := [];
    var walk := Walk(tree.value);
    var i := 0;
    while i < |walk|
      invariant 0 <= i <= |walk|
      invariant nodes == PythonNodes(filepath, walk[..i])
    {
      assert walk[..i + 1][..i] == walk[..i];
      var emitted := EmitPython(filepath, walk[i]);
      nodes := nodes + emitted;
      i := i + 1;
    }
    assert walk[..i] == walk;
    r := Ok(nodes);
  }
  // ---------------------------------------------------------------------------
  // Regular-expression front ends (JavaScript/TypeScript and Java)

  /** A match of a pattern: where it starts in the source and its first group. */
  datatype Match = Match(start: nat, group: string)

  /** `source[:start].count("\n") + 1`: the 1-based line of a position. */
  function LineOf(source: string, start: nat): (line: int)
    requires start <= |source|
    ensures 1 <= line <= CountChar(source, '\n') + 1
  {
    CountPrefix(source, start);
    CountChar(source[..start], '\n') + 1
  }

  lemma {:induction false} CountPrefix(s: string, k: nat)
    requires k <= |s|
    ensures CountChar(s[..k], '\n') <= CountChar(s, '\n')
    decreases |s|
  {
    if k < |s| {
      assert s[..|s| - 1][..k] == s[..k];
      CountPrefix(s[..|s| - 1], k);
    } else {
      assert s[..k] == s;
    }
  }

  /** A later match is never on an earlier line. */
  lemma {:induction false} LineOfMonotone(source: string, a: nat, b: nat)
    requires a <= b <= |source|
    ensures LineOf(source, a) <= LineOf(source, b)
  {
    CountPrefix(source[..b], a);
    assert source[..b][..a] == source[..a];
  }

  /** The language tag of a JavaScript/TypeScript file. */
  function JsLanguage(filepath: string): (r: string)
    ensures r == "typescript" <==> EndsWith(filepath, ".ts") || EndsWith(filepath, ".tsx")
    ensures r == "typescript" || r == "javascript"
  {
    if EndsWith(filepath, ".ts") || EndsWith(filepath, ".tsx") then "typescript" else "javascript"
  }

  predicate MatchesIn(source: string, ms: seq<Match>) {
    forall m | m in ms :: m.start <= |source|
  }

  /** A function found by a pattern: no call list and no complexity. */
  function MatchFunctionNode(filepath: string, name: string, line: int, language: string): ParsedNode {
    ParsedNode(ElementId(filepath, name), FunctionLabel(name), "function", filepath, language,
               Some(line), None, None, None, None, None, None, None, None)
  }

  function FunctionMatchNodes(filepath: string, source: string, ms: seq<Match>, language: string): (r: seq<ParsedNode>)
    requires MatchesIn(source, ms)
    ensures |r| == |ms|
  {
    seq(|ms|, i requires 0 <= i < |ms| => MatchFunctionNode(filepath, ms[i].group, LineOf(source, ms[i].start), language))
  }

  function ClassMatchNodes(filepath: string, source: string, ms: seq<Match>, language: string): (r: seq<ParsedNode>)
    requires MatchesIn(source, ms)
    ensures |r| == |ms|
  {
    seq(|ms|, i requires 0 <= i < |ms| => ClassNode(filepath, ms[i].group, LineOf(source, ms[i].start), language))
  }

  /** The regular-expression matches of one source file, one list per pattern, in match order. */
  datatype JsMatches = JsMatches(functions: seq<seq<Match>>, classes: seq<Match>, imports: seq<Match>)

  predicate JsMatchesIn(source: string, m: JsMatches) {
    (forall ms | ms in m.functions :: MatchesIn(source, ms)) && MatchesIn(source, m.classes) && MatchesIn(source, m.imports)
  }

  /**
   * `_parse_js_ts`: the matches of the four function patterns, pattern by
   * pattern, then the class matches, then the import matches.
   */
  function JsTsNodes(filepath: string, source: string, m: JsMatches): (r: seq<ParsedNode>)
    requires JsMatchesIn(source, m)
    ensures forall n | n in r :: n.file == filepath && n.language == JsLanguage(filepath)
  {
    FunctionGroups(filepath, source, m.functions, JsLanguage(filepath))
    + ClassMatchNodes(filepath, source, m.classes, JsLanguage(filepath))
    + ImportNodes(filepath, seq(|m.imports|, i requires 0 <= i < |m.imports| => m.imports[i].group), JsLanguage(filepath))
  }

  function FunctionGroups(filepath: string, source: string, groups: seq<seq<Match>>, language: string): (r: seq<ParsedNode>)
    requires forall ms | ms in groups :: MatchesIn(source, ms)
    ensures forall n | n in r :: n.file == filepath && n.language == language && n.kind == "function"
  {
    if groups == [] then []
    else
      FunctionGroups(filepath, source, groups[..|groups| - 1], language)
      + FunctionMatchNodes(filepath, source, groups[|groups| - 1], language)
  }

  /** `_parse_js_ts`: a missing file gives no record; any other `OSError` escapes. */
  method ParseJsTs(filepath: string, read: FileRead, m: JsMatches) returns (r: Parsed)
    requires read.Text? ==> JsMatchesIn(read.text, m)
    ensures read.NotFound? ==> r == Ok([])
    ensures read.OsError? ==> r == Err(read.name)
    ensures read.Text? ==> r == Ok(JsTsNodes(filepath, read.text, m))
  {
    if read.NotFound? {
      return Ok([]);
    } else if read.OsError? {
      return Err(read.name);
    }
    var src := read.text;
    var nodes := [];
    var language := JsLanguage(filepath);
    var p := 0;
    while p < |m.functions|
      invariant 0 <= p <= |m.functions|
      invariant nodes == FunctionGroups(filepath, src, m.functions[..p], language)
    {
      assert m.functions[..p + 1][..p] == m.functions[..p];
      assert m.functions[p] in m.functions;
      nodes := AppendFunctionMatches(nodes, filepath, src, m.functions[p], language);
      p := p + 1;
    }
    assert m.functions[..p] == m.functions;
    nodes := AppendClassMatches(nodes, filepath, src, m.classes, language);
    var labels := seq(|m.imports|, j requires 0 <= j < |m.imports| => m.imports[j].group);
    nodes := AppendImports(nodes, filepath, labels, language);
    r := Ok(nodes);
  }

  method AppendFunctionMatches(acc: seq<ParsedNode>, filepath: string, src: string, ms: seq<Match>, language: string)
    returns (nodes: seq<ParsedNode>)
    requires MatchesIn(src, ms)
    ensures nodes == acc + FunctionMatchNodes(filepath, src, ms, language)
  {
    nodes := acc;
    var i := 0;
    while i < |ms|
      invariant 0 <= i <= |ms|
      invariant nodes == acc + FunctionMatchNodes(filepath, src, ms[..i], language)
    {
      nodes := nodes + [MatchFunctionNode(filepath, ms[i].group, LineOf(src, ms[i].start), language)];
      i := i + 1;
    }
    assert ms[..i] == ms;
  }

  method AppendClassMatches(acc: seq<ParsedNode>, filepath: string, src: string, ms: seq<Match>, language: string)
    returns (nodes: seq<ParsedNode>)
    requires MatchesIn(src, ms)
    ensures nodes == acc + ClassMatchNodes(filepath, src, ms, language)
  {
    nodes := acc;
    var i := 0;
    while i < |ms|
      invariant 0 <= i <= |ms|
      invariant nodes == acc + ClassMatchNodes(filepath, src, ms[..i], language)
    {
      nodes := nodes + [ClassNode(filepath, ms[i].group, LineOf(src, ms[i].start), language)];
      i := i + 1;
    }
    assert ms[..i] == ms;
  }

  method AppendImports(acc: seq<ParsedNode>, filepath: string, labels: seq<string>, language: string)
    returns (nodes: seq<ParsedNode>)
    ensures nodes == acc + ImportNodes(filepath, labels, language)
  {
    nodes := acc;
    var i := 0;
    while i < |labels|
      invariant 0 <= i <= |labels|
      invariant nodes == acc + ImportNodes(filepath, labels[..i], language)
    {
      nodes := nodes + [ImportNode(filepath, labels[i], language)];
      i := i + 1;
    }
    assert labels[..i] == labels;
  }

  /** The matches of the Java class pattern and of the Java method pattern. */
  datatype JavaMatches = JavaMatches(classes: seq<Match>, methods: seq<Match>)

  /** `_parse_java`: class matches first, then method matches, all tagged "java". */
  function JavaNodes(filepath: string, source: string, m: JavaMatches): (r: seq<ParsedNode>)
    requires MatchesIn(source, m.classes) && MatchesIn(source, m.methods)
    ensures |r| == |m.classes| + |m.methods|
    ensures forall i | 0 <= i < |m.classes| :: r[i].kind == "class" && r[i].labelText == m.classes[i].group
    ensures forall i | 0 <= i < |m.methods| ::
      r[|m.classes| + i].kind == "function" && r[|m.classes| + i].labelText == FunctionLabel(m.methods[i].group)
  {
    ClassMatchNodes(filepath, source, m.classes, "java") + FunctionMatchNodes(filepath, source, m.methods, "java")
  }

  /** `_parse_java`: a missing file gives no record; any other `OSError` escapes. */
  method ParseJava(filepath: string, read: FileRead, m: JavaMatches) returns (r: Parsed)
    requires read.Text? ==> MatchesIn(read.text, m.classes) && MatchesIn(read.text, m.methods)
    ensures read.NotFound? ==> r == Ok([])
    ensures read.OsError? ==> r == Err(read.name)
    ensures read.Text? ==> r == Ok(JavaNodes(filepath, read.text, m))
  {
    if read.NotFound? {
      return Ok([]);
    } else if read.OsError? {
      return Err(read.name);
    }
    var src := read.text;
    var nodes := [];
    var i := 0;
    while i < |m.classes|
      invariant 0 <= i <= |m.classes|
      invariant nodes == ClassMatchNodes(filepath, src, m.classes[..i], "java")
    {
      nodes := nodes + [ClassNode(filepath, m.classes[i].group, LineOf(src, m.classes[i].start), "java")];
      i := i + 1;
    }
    assert m.classes[..i] == m.classes;
    i := 0;
    var before := nodes;
    while i < |m.methods|
      invariant 0 <= i <= |m.methods|
      invariant nodes == before + FunctionMatchNodes(filepath, src, m.methods[..i], "java")
    {
      var mm := m.methods[i];
      nodes := nodes + [MatchFunctionNode(filepath, mm.group, LineOf(src, mm.start), "java")];
      i := i + 1;
    }
    assert m.methods[..i] == m.methods;
    r := Ok(nodes);
  }

  // ---------------------------------------------------------------------------
  // Other languages and dispatch

  /** `len(f.readlines())`: the newlines, plus one for a last line without one. */
  function LineCount(text: string): (n: nat)
    ensures text == [] ==> n == 0
    ensures n == CountChar(text, '\n') + (if text != [] && text[|text| - 1] != '\n' then 1 else 0)
  {
    CountChar(text, '\n') + (if text != [] && text[|text| - 1] != '\n' then 1 else 0)
  }

  /**
   * `_parse_generic`: one "file" record for a readable file, none for a
   * missing one; any other `OSError` escapes.
   */
  function GenericNodes(filepath: string, language: string, read: FileRead): (r: Parsed)
    ensures r == Ok([]) <==> read.NotFound?
    ensures r.Err? <==> read.OsError?
    ensures read.OsError? ==> r.error == read.name
    ensures read.Text? ==> r.Ok? && |r.value| == 1 && r.value[0].id == filepath
                           && r.value[0].labelText == Basename(filepath) && r.value[0].kind == "file"
                           && r.value[0].language == language && r.value[0].loc == Some(LineCount(read.text))
  {
    match read
    case NotFound => Ok([])
    case OsError(name) => Err(name)
    case Text(t) =>
      Ok([ParsedNode(filepath, Basename(filepath), "file", filepath, language,
                     None, None, None, None, None, None, None, None, Some(LineCount(t)))])
  }

  /** The parser `parse_file` hands a language to. */
  datatype Front = PythonFront | JsTsFront | JavaFront | GenericFront

  function FrontFor(language: string): (f: Front)
    ensures f == PythonFront <==> language == "python"
    ensures f == JsTsFront <==> language == "javascript" || language == "typescript"
    ensures f == JavaFront <==> language == "java"
  {
    if language == "python" then PythonFront
    else if language == "javascript" || language == "typescript" then JsTsFront
    else if language == "java" then JavaFront
    else GenericFront
  }

  /**
   * What the parsers see of one file: the outcome of opening it, its Python
   * tree (`None` for a syntax error) and the matches of the regular
   * expressions in its text.
   */
  datatype SourceFile = SourceFile(read: FileRead, tree: Option<PyNode>, js: JsMatches, java: JavaMatches)

  predicate SourceFileOk(f: SourceFile) {
    f.read.Text? ==> JsMatchesIn(f.read.text, f.js)
                     && MatchesIn(f.read.text, f.java.classes) && MatchesIn(f.read.text, f.java.methods)
  }

  /** `parse_file`: python, javascript/typescript and java have their own parser; every other language the generic one. */
  /**
   * `parse_file`: python, javascript/typescript and java have their own
   * parser; every other language the generic one. Whatever the language, a
   * missing file gives no record and any other `OSError` escapes.
   */
  method ParseFile(filepath: string, language: string, f: SourceFile) returns (r: Parsed)
    requires SourceFileOk(f)
    ensures f.read.NotFound? ==> r == Ok([])
    ensures f.read.OsError? ==> r == Err(f.read.name)
    ensures f.read.Text? && FrontFor(language) == PythonFront ==>
      r == Ok(if f.tree.None? then [] else PythonNodes(filepath, Walk(f.tree.value)))
    ensures f.read.Text? && FrontFor(language) == JsTsFront ==> r == Ok(JsTsNodes(filepath, f.read.text, f.js))
    ensures f.read.Text? && FrontFor(language) == JavaFront ==> r == Ok(JavaNodes(filepath, f.read.text, f.java))
    ensures f.read.Text? && FrontFor(language) == GenericFront ==>
      r.Ok? && |r.value| == 1 && r.value[0].kind == "file" && r.value[0].loc == Some(LineCount(f.read.text))
  {
    if language == "python" {
      r := ParsePython(filepath, f.read, f.tree);
    } else if language == "javascript" || language == "typescript" {
      r := ParseJsTs(filepath, f.read, f.js);
    } else if language == "java" {
      r := ParseJava(filepath, f.read, f.java);
    } else {
      r := GenericNodes(filepath, language, f.read);
    }
  }
}
