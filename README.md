# CFIP core, modelled in Dafny

CFIP is a code-intelligence platform for banking software. A Python engine
parses a repository, builds a dependency graph of its functions, classes and
modules, scores each element's change risk, maps code to banking business
capabilities, flags regulated-domain and engineering risks, and proposes
remediations. A Next.js dashboard holds the last scan, keeps an audit log
in the browser's storage, and shows risks, the graph, the architecture, the
business mapping and the remediation plan.

This project models the decision logic of both halves. There is one Dafny
module per source file, plus five shared modules:

- `Wrappers`: `Option` and `Result`.
- `Strings`: Python and JavaScript string operations on ASCII text, such as
  `strip`, `lower`, `split`, `replace` and `startswith`.
- `Collections`: filters, counts, sums, first-occurrence distinct lists,
  grouping, and an insertion-ordered dictionary `ODict` for Python `dict`
  iteration order.
- `Files`: the outcome of opening and reading a source file: its text, a
  missing file, or another `OSError`.
- `Graphs`: a directed graph with at most one attributed edge per ordered
  pair, NetworkX's add-node and add-edge semantics, reachability, and
  walks of bounded length.

**Engine services.** These modules model code in `engine/services/`.

- `AstParser` covers the parser front end: language dispatch, id and label
  formats, line numbering of matches, and cyclomatic complexity over an
  abstract syntax tree.
- `CodeScanner` covers the directory walk with pruned directories,
  extension lookup, the comment-counting state machine, metric
  accumulation, and the anti-pattern checks.
- `GraphBuilder` covers the three edge rules of `build_graph`, the export
  with reachability counts, and the two-way breadth-first search of
  `get_subgraph`. Its builder is a class whose graph field the passes
  update.
- `RiskScorer` covers the severity thresholds, the risk-type precedence,
  node scoring, the stable sort by severity, impact simulation and
  threshold updates.
- `BusinessMapper` covers keyword scoring with a first-wins best match,
  capability coverage, and the ontology report.
- `DomainRules`, `BfsiAnalyzer` and `EngineeringAnalyzer` cover the two
  first-matching-domain analyzers.
- `RemediationGenerator` covers suggestion derivation. Each random draw is
  a nondeterministic choice within its range.
- `GitHubClient` covers the repository name, the clone directory, the
  authenticated URL, the clone outcome, the paging loop of `list_repos` over
  a sequence of API answers, and contributor aggregation.
- `TenantManager` covers tenant lookup, feature gating, repository quotas
  and in-place tenant updates. Its manager is a class holding the tenant
  map.

**Dashboard.** These modules model the TypeScript client.

- `BrowserStorage` and `JsonText` model `localStorage` and the JSON text
  it holds.
- `Auth` covers the demo login and the stored user.
- `ScanContext` covers the scan state holder and its audit log.
- The pages are `RemediationPage`, `RiskPage`, `GraphPage`,
  `ArchitecturePage`, `EngineeringPage` and `BusinessPage`, with
  `DashboardGraph` holding the graph records several pages read.
- `RiskRoute` covers the risk summary endpoint.

I/O is a parameter wherever it occurs:

- the file contents, the directory tree, the API answers, the clock and
  the storage;
- whether an optional library is installed;
- a parse or regular-expression result.

Where the source raises an error, the model returns an `Option` or a
`Result`. This includes errors the source catches and errors it lets
escape. Opening a file can find it missing, which the parsers and the
anti-pattern detector catch. It can also fail with another `OSError`,
which escapes from them and which the directory scan skips. A request to the GitHub API can
raise, or answer a body that is not JSON.

## Model

| member | source | states |
|---|---|---|
| AstParser.Walk | engine/services/ast_parser.py:34 | `ast.walk` visits the node itself first, then every descendant |
| AstParser.WalkScore | engine/services/ast_parser.py:215-223 | adding the per-node contributions in walk order gives the recursive structural score of the tree |
| AstParser.TreeScoreNonNegative | engine/services/ast_parser.py:219-222 | for well-formed trees (every boolean operator has at least one operand) the added complexity is never negative |
| AstParser.ForestScoreNonNegative | engine/services/ast_parser.py:219-222 | the same for a list of subtrees |
| AstParser.EstimateComplexity | engine/services/ast_parser.py:215-223 | the loop returns 1 plus the structural score (one per if/while/for/except, operands−1 per boolean operator), so at least 1 for well-formed trees |
| AstParser.CallsIn | engine/services/ast_parser.py:37-42 | at most one called name per walked node |
| AstParser.CollectCalls | engine/services/ast_parser.py:36-42 | the loop collects, in walk order, the id of a `Name` callee or the attribute of an `Attribute` callee of every call |
| AstParser.NamesOf | engine/services/ast_parser.py:225-237 | one name per decorator or base, in order: the `id` of a name, the `attr` of an attribute, the text otherwise |
| AstParser.MethodsIn | engine/services/ast_parser.py:61-65 | every name listed is that of a function definition in the class's walk, and every function definition of the walk, nested ones included, is listed; never more names than walked nodes |
| AstParser.CollectMethods | engine/services/ast_parser.py:61-65 | the comprehension over `ast.walk(node)` collects exactly those names, in walk order |
| AstParser.ElementId | engine/services/ast_parser.py:45 | a function or class id starts with the file path and a colon and ends with the name |
| AstParser.FunctionLabel | engine/services/ast_parser.py:46 | a function label is the name followed by "()" |
| AstParser.ImportId | engine/services/ast_parser.py:81 | an import id starts with "<file>:import:" and ends with the import's label |
| AstParser.FromImportLabel | engine/services/ast_parser.py:89-93 | a `from` import label ends with "." and the alias name; a missing module gives the bare "." prefix |
| AstParser.FunctionLabelStrip | engine/services/graph_builder.py:33 | removing "()" from a function label gives back the name when the name holds no parenthesis |
| AstParser.ImportNodes | engine/services/ast_parser.py:78-97 | one import record per alias, in alias order |
| AstParser.PythonNodes | engine/services/ast_parser.py:34-97 | one record per walked function or class and one per imported alias, and no other record |
| AstParser.PythonNodesFor | engine/services/ast_parser.py:35-97 | a walked function or class yields one record, an import one per alias, any other node none |
| AstParser.PythonNodesShape | engine/services/ast_parser.py:44-97 | every Python record belongs to the file and is tagged "python"; a function record carries its first and last line, its calls, parameter names, complexity and decorators and no methods or bases; a class record its first and last line, methods and bases and no calls, parameters or decorators; an import record no line numbers; and each has the id format of its kind |
| AstParser.EmitPython | engine/services/ast_parser.py:35-97 | the body of the walk loop emits exactly the records specified for that node, with `end_lineno` falling back to the first line, the calls collected by walking the function, and the methods collected by walking the class |
| AstParser.ParsePython | engine/services/ast_parser.py:26-102 | a missing file or a source that does not parse gives no records; any other `OSError` from opening or reading escapes with its name; otherwise the records of every walked node, in walk order |
| AstParser.LineOf | engine/services/ast_parser.py:122 | the 1-based line of a match lies between 1 and the number of lines of the source |
| AstParser.LineOfMonotone | engine/services/ast_parser.py:122 | a later match never lies on an earlier line |
| AstParser.JsLanguage | engine/services/ast_parser.py:129 | "typescript" exactly for ".ts" and ".tsx" files, otherwise "javascript" |
| AstParser.FunctionMatchNodes | engine/services/ast_parser.py:121-130 | one function record per match |
| AstParser.ClassMatchNodes | engine/services/ast_parser.py:134-143 | one class record per match |
| AstParser.JsTsNodes | engine/services/ast_parser.py:104-159 | every record of a JavaScript/TypeScript file belongs to the file and carries the file's language tag |
| AstParser.FunctionGroups | engine/services/ast_parser.py:120-130 | the four function patterns yield only function records of the file, in the language of the file |
| AstParser.ParseJsTs | engine/services/ast_parser.py:104-159 | a missing file gives no records and any other `OSError` escapes with its name; otherwise the function, then class, then import records of the file's text |
| AstParser.AppendFunctionMatches | engine/services/ast_parser.py:121-130 | the loop appends the records of the function matches, in match order |
| AstParser.AppendClassMatches | engine/services/ast_parser.py:134-143 | the loop appends the records of the class matches, in match order |
| AstParser.AppendImports | engine/services/ast_parser.py:147-154 | the loop appends one import record per import match, in order |
| AstParser.JavaNodes | engine/services/ast_parser.py:169-192 | the class records come first, one per class match with its name, then one function record "name()" per method match |
| AstParser.ParseJava | engine/services/ast_parser.py:161-197 | a missing file gives no records and any other `OSError` escapes with its name; otherwise the class records then the method records of the file's text |
| AstParser.LineCount | engine/services/ast_parser.py:203-210 | the number of lines is the newlines plus one for an unterminated last line, and 0 for an empty file |
| AstParser.GenericNodes | engine/services/ast_parser.py:199-213 | no records exactly when the file is missing; an error exactly when another `OSError` escapes, carrying its name; otherwise exactly one "file" record with the path as id, its base name as label, the language and its line count |
| AstParser.FrontFor | engine/services/ast_parser.py:17-24 | python, javascript/typescript and java each select their own parser, every other language the generic one |
| AstParser.ParseFile | engine/services/ast_parser.py:15-24 | a missing file gives no records and any other `OSError` escapes, whatever the language; otherwise the result is that of the parser the language selects, over the file's text |
| DomainRules.FirstMatchNone | engine/services/bfsi_analyzer.py:27-31 | no domain matches exactly when no keyword of any domain occurs in the searched texts |
| DomainRules.FirstMatchAt | engine/services/engineering_analyzer.py:27-31 | the first domain (in table order) with a keyword hit is the one matched |
| DomainRules.FirstMatchFound | engine/services/bfsi_analyzer.py:27-31 | a matched domain has a keyword hit and no earlier domain has one |
| DomainRules.FirstMatch | engine/services/bfsi_analyzer.py:27-31 | a matched domain is one of the table whose keywords hit the searched texts |
| DomainRules.EmptyTextsNoMatch | engine/services/engineering_analyzer.py:22-31 | with non-empty keywords, empty label and path texts match no domain |
| DomainRules.MatchDomain | engine/services/bfsi_analyzer.py:27-31 | the loop with its `break` returns the first matching domain, or none |
| BfsiAnalyzer.DescriptionQuotesName | engine/services/bfsi_analyzer.py:47-56 | every description quotes the lower-cased node name |
| BfsiAnalyzer.DescriptionNamesRisk | engine/services/bfsi_analyzer.py:49-53 | the payment text names the risk level and the ledger text its capitalised form |
| BfsiAnalyzer.TradeUsesGenericDescription | engine/services/bfsi_analyzer.py:47-56 | the trade domain has no text of its own and falls to the generic one |
| BfsiAnalyzer.ImpactOfWhen | engine/services/bfsi_analyzer.py:22-33 | a node is reported exactly when a keyword occurs in its lower-cased label and its risk is critical or high |
| BfsiAnalyzer.ImpactOfFacts | engine/services/bfsi_analyzer.py:33-43 | a reported impact has id "bfsi-<node id>", the node's id and severity, the capitalised first matching domain and the "<Domain> Integrity Risk" type |
| BfsiAnalyzer.ImpactOf | engine/services/bfsi_analyzer.py:22-43 | a record is made only for a critical or high node, under that node's id |
| BfsiAnalyzer.NoRiskNoImpact | engine/services/bfsi_analyzer.py:24-33 | a node without a risk defaults to "low" and is never reported |
| BfsiAnalyzer.NoLabelNoImpact | engine/services/bfsi_analyzer.py:23-29 | a node without a label searches the empty text and is never reported |
| BfsiAnalyzer.PaymentBeforeReporting | engine/services/bfsi_analyzer.py:10-31 | a name hitting both payment and reporting keywords goes to payment, the earlier domain |
| BfsiAnalyzer.ImpactsPerNode | engine/services/bfsi_analyzer.py:18-45 | the impacts are those of the reported nodes, at most one per node, in node order, and none is missed |
| BfsiAnalyzer.AnalyzeNode | engine/services/bfsi_analyzer.py:23-43 | the loop body yields the node's specified impact or none |
| BfsiAnalyzer.AnalyzeDomain | engine/services/bfsi_analyzer.py:18-45 | the loop returns the specified impacts of all nodes, in order |
| EngineeringAnalyzer.CiCdDisplayName | engine/services/engineering_analyzer.py:38 | "ci_cd" is displayed as "Ci Cd" |
| EngineeringAnalyzer.AuthSecurityDisplayName | engine/services/engineering_analyzer.py:38 | "auth_security" is displayed as "Auth Security" |
| EngineeringAnalyzer.TableDomainsHaveOwnText | engine/services/engineering_analyzer.py:10-55 | every domain of the keyword table has its own description, so the generic text is never used |
| EngineeringAnalyzer.DescriptionQuotesName | engine/services/engineering_analyzer.py:46-55 | the descriptions quote the node name; the CI/CD text names the risk and the auth text its capitalised form |
| EngineeringAnalyzer.ImpactOfWhen | engine/services/engineering_analyzer.py:21-33 | a node is reported exactly when a keyword occurs in its lower-cased path or label and its risk is critical or high |
| EngineeringAnalyzer.ImpactOfFacts | engine/services/engineering_analyzer.py:33-42 | a reported impact has id "eng-<node id>", the node's id and severity, the title-cased first matching domain, the "<Domain> Configuration Risk" type and a description quoting the label |
| EngineeringAnalyzer.ImpactOf | engine/services/engineering_analyzer.py:21-42 | a record is made only for a critical or high node, under that node's id |
| EngineeringAnalyzer.JenkinsfileIsCiCd | engine/services/engineering_analyzer.py:11-29 | a critical node in a file named "Jenkinsfile" is a CI/CD risk, matched through its lower-cased path |
| EngineeringAnalyzer.NoTextNoImpact | engine/services/engineering_analyzer.py:22-29 | a node with neither label nor file is never reported |
| EngineeringAnalyzer.NoRiskNoImpact | engine/services/engineering_analyzer.py:24-33 | a node without a risk defaults to "low" and is never reported |
| EngineeringAnalyzer.ImpactsPerNode | engine/services/engineering_analyzer.py:17-44 | the impacts are those of the reported nodes, at most one per node, in node order, and none is missed |
| EngineeringAnalyzer.AnalyzeNode | engine/services/engineering_analyzer.py:22-42 | the loop body yields the node's specified impact or none |
| EngineeringAnalyzer.AnalyzeDomain | engine/services/engineering_analyzer.py:17-44 | the loop returns the specified impacts of all nodes, in order |
| BrowserStorage.LocalStorage.constructor | src/lib/auth.ts:25 | a fresh storage holds no items |
| BrowserStorage.LocalStorage.GetItem | src/lib/auth.ts:25 | `getItem` yields the stored text exactly when the key is present |
| BrowserStorage.LocalStorage.SetItem | src/lib/auth.ts:35 | `setItem` stores the value under the key and changes no other key |
| BrowserStorage.LocalStorage.RemoveItem | src/lib/auth.ts:39 | `removeItem` drops the key and changes no other key |
| Auth.AuthenticateWhen | src/lib/auth.ts:11-13 | login succeeds exactly when some demo user has both the e-mail and the password |
| Auth.AuthenticateFirst | src/lib/auth.ts:12-20 | on success the result is the first matching user without the password |
| Auth.Authenticate | src/lib/auth.ts:11-21 | a login that succeeds answers the public record of a user whose e-mail and password both match |
| Auth.AdminLogin | src/lib/auth.ts:11-21 | with the seed users (src/lib/seed-data.ts:728-733) the admin's credentials give the admin's public record and a wrong password gives none |
| Auth.UserValues | src/lib/auth.ts:3-9 | a stored user has exactly the five fields id, email, name, role, avatar |
| Auth.DecodeEncodeUser | src/lib/auth.ts:28-35 | `JSON.parse(JSON.stringify(user))` is the user |
| Auth.UserInNone | src/lib/auth.ts:23-32 | no user is read exactly when there is no window, no or an empty stored text, or text that does not parse |
| Auth.GetUserFromStorage | src/lib/auth.ts:23-32 | the user read is the one the stored items hold under "cfip_user", as `UserIn` decodes it |
| Auth.SetThenGet | src/lib/auth.ts:23-36 | after storing a user, reading gives that user back |
| Auth.ClearThenGet | src/lib/auth.ts:23-40 | after clearing, no user is read |
| Auth.SetUserToStorage | src/lib/auth.ts:34-36 | stores the user's JSON under "cfip_user" only, and the stored user then reads back |
| Auth.ClearUserFromStorage | src/lib/auth.ts:38-40 | removes only "cfip_user", after which no user reads back |
| JsonText.Unquote | src/lib/auth.ts:28 | reading a string literal consumes at least its closing quote |
| JsonText.UnquoteEscape | src/lib/auth.ts:28-35 | an escaped string literal reads back as its value and reading stops at its closing quote |
| JsonText.ReadField | src/lib/auth.ts:28 | reading a field consumes some text |
| JsonText.ReadFieldRoundTrip | src/lib/auth.ts:28-35 | a written field reads back as its value |
| JsonText.ReadFields | src/lib/auth.ts:28 | a successful read yields one value per expected field name |
| JsonText.ReadFieldsRoundTrip | src/lib/auth.ts:28-35 | written fields read back as their values, in order |
| JsonText.ReadRecord | src/lib/auth.ts:28 | a successful read yields one value per field name |
| JsonText.ReadRecordRoundTrip | src/lib/auth.ts:28-35 | a written record reads back as its values |
| JsonText.ReadItems | src/lib/scan-context.tsx:60 | every record read has the expected number of fields |
| JsonText.ReadArray | src/lib/scan-context.tsx:60 | every record read has the expected number of fields |
| JsonText.ReadItemsLast | src/lib/scan-context.tsx:60 | a record followed by "]" is the last item |
| JsonText.ReadItemsMore | src/lib/scan-context.tsx:60 | a record followed by "," is followed by the remaining items |
| JsonText.ReadItemsRoundTrip | src/lib/scan-context.tsx:60-61 | written non-empty item lists read back as their records |
| JsonText.ReadArrayRoundTrip | src/lib/scan-context.tsx:60-61 | a written array, empty or not, reads back as its records |
| JsonText.ParseRecord | src/lib/auth.ts:28 | a parsed record has one value per field name |
| JsonText.ParseArray | src/lib/scan-context.tsx:60 | every parsed record has one value per field name |
| JsonText.ParseRecordRoundTrip | src/lib/auth.ts:28-35 | `JSON.parse(JSON.stringify(record))` gives the record |
| JsonText.ParseArrayRoundTrip | src/lib/scan-context.tsx:60-61 | `JSON.parse(JSON.stringify(array))` gives the array |
| ScanContext.EntryValues | src/lib/scan-context.tsx:50-58 | an audit entry has exactly the seven fields id, timestamp, action, user, role, details, type |
| ScanContext.StoredLogRoundTrip | src/lib/scan-context.tsx:59-61 | a log written under "cfip_audit_logs" reads back unchanged |
| ScanContext.StoredLog | src/lib/scan-context.tsx:59-60 | reading the log fails only when a non-empty text is stored under "cfip_audit_logs" and does not parse as a list of entries |
| ScanContext.ScanEntryFacts | src/lib/scan-context.tsx:50-58 | the entry's id starts with "log-scan-", its type is "scan", its timestamp is the clock's, and its details name the repository or "local directory" |
| ScanContext.ScanProvider.constructor | src/lib/scan-context.tsx:35-36 | the provider starts with no data and not scanning |
| ScanContext.ScanProvider.SetScanData | src/lib/scan-context.tsx:35 | replaces the data only |
| ScanContext.ScanProvider.SetIsScanning | src/lib/scan-context.tsx:36 | replaces the flag only |
| ScanContext.ScanProvider.RunScan | src/lib/scan-context.tsx:38-73 | succeeds exactly when the answer has nodes and the stored log parses; then the data is replaced and the log gains the new entry in front; on failure neither changes; the flag is down afterwards |
| ScanContext.UseScan | src/lib/scan-context.tsx:82-88 | outside a provider the hook fails with "useScan must be used within a ScanProvider", inside it yields the provider |
| RemediationPage.Current | src/app/dashboard/remediation/page.tsx:32 | the scan's suggestions are used whenever the scan has a list, even an empty one; otherwise the seed list |
| RemediationPage.CategoriesFacts | src/app/dashboard/remediation/page.tsx:34 | the chips are "all" and then every category of the list exactly once, in order of first appearance |
| RemediationPage.FilteredFacts | src/app/dashboard/remediation/page.tsx:35 | "all" shows the whole list; another filter exactly the suggestions of that category, each as often as it occurs |
| RemediationPage.NothingAccepted | src/app/dashboard/remediation/page.tsx:37-43 | with nothing accepted both totals are 0 |
| RemediationPage.AcceptAdds | src/app/dashboard/remediation/page.tsx:37-43 | accepting a new id adds the amounts of exactly the suggestions carrying it to the total |
| RemediationPage.WithdrawSubtracts | src/app/dashboard/remediation/page.tsx:37-43 | withdrawing an accepted id subtracts them again |
| RemediationPage.PageState.constructor | src/app/dashboard/remediation/page.tsx:28-30 | the page starts on "all" with nothing accepted or rejected |
| RemediationPage.PageState.SetFilter | src/app/dashboard/remediation/page.tsx:76 | a chip changes the filter only |
| RemediationPage.PageState.Accept | src/app/dashboard/remediation/page.tsx:151-158 | the accept button toggles the id's acceptance and removes it from the rejected set, so no id is ever both |
| RemediationPage.PageState.Reject | src/app/dashboard/remediation/page.tsx:164-171 | the reject button toggles the id's rejection and removes it from the accepted set, so no id is ever both |
| DashboardGraph.CurrentOf | src/app/dashboard/graph/page.tsx:49-50 | with a scan its nodes (edges) are used, otherwise the seed ones |
| DashboardGraph.NodeByIdFacts | src/app/dashboard/risk/page.tsx:31 | `find` by id yields the first node carrying the id, and nothing exactly when no node carries it |
| RiskPage.ImpactNameFacts | src/app/dashboard/risk/page.tsx:31 | the business impact names the label of the first node with the risk's node id, or "unknown" when there is none or its label is empty |
| RiskPage.RiskItemsFacts | src/app/dashboard/risk/page.tsx:20-37 | without a scan the seed registry; with one, card i shows scan risk i with id "risk-i", its type with every "_" turned into a space as category, and "3 days" exactly when the recommendation is longer than 50 characters |
| RiskPage.RiskItems | src/app/dashboard/risk/page.tsx:20-37 | with a scan, one card per scan risk, in order, each with its risk's node and severity |
| RiskPage.CardIdsDistinct | src/app/dashboard/risk/page.tsx:25 | the cards of a scan carry pairwise different ids |
| RiskPage.FilteredFacts | src/app/dashboard/risk/page.tsx:39-42 | a card is shown exactly when it passes both the category and the severity filter ("all" passing everything); with both on "all" the whole registry is shown |
| RiskPage.SummaryCardMatchesFilter | src/app/dashboard/risk/page.tsx:39-93 | a summary card counts the whole registry, and clicking it (severity filter set, category "all") shows exactly that many cards |
| RiskPage.SummaryCovers | src/app/dashboard/risk/page.tsx:87-90 | when every severity is one of the four, the four summary counts add up to the registry's size |
| RiskPage.ActiveSimulation | src/app/dashboard/risk/page.tsx:44 | the simulation shown is one changing the selected node, none without a selection, and none exactly when no simulation changes that node |
| RiskPage.SimulableChips | src/app/dashboard/risk/page.tsx:151 | the chips are the first ten nodes, in order |
| RiskRoute.Get | src/app/api/risk/route.ts:4-15 | the risks and the simulations are answered unchanged |
| RiskRoute.SummaryFacts | src/app/api/risk/route.ts:8-13 | each summary count is the number of risks of its severity, and the four add up to the number of risks because the severity has exactly four values (src/lib/seed-data.ts:36) |
| GraphPage.ShownNodesFacts | src/app/dashboard/graph/page.tsx:116-117 | a node is drawn exactly when it passes the type filter and the risk filter (a node without a risk only under "all"); under "all"/"all" every node, in order |
| GraphPage.ShownIdsFacts | src/app/dashboard/graph/page.tsx:131-134 | an id is among the valid ids exactly when a visible node carries it |
| GraphPage.InducedSubgraph | src/app/dashboard/graph/page.tsx:129-136 | an edge is drawn exactly when both its ends are visible nodes: the drawn graph is the subgraph induced by the visible nodes |
| GraphPage.ShownEdges | src/app/dashboard/graph/page.tsx:129-136 | an edge is drawn exactly when it is an edge of the data with both ends among the visible ids; never more edges than given |
| GraphPage.NodeStyleFacts | src/app/dashboard/graph/page.tsx:119-127 | a node keeps its id and label; size 50 exactly for modules, 40 exactly for services, else 30; no (or an empty) risk borders as low, an unknown one in grey; an unknown type is a grey ellipse |
| GraphPage.EdgeColor | src/app/dashboard/graph/page.tsx:143 | red for high criticality, yellow for medium, grey for anything else or none |
| GraphPage.EdgeColorsMatchRisk | src/app/dashboard/graph/page.tsx:143 | the edge colours for high and medium criticality are the critical and medium risk colours, never the high or low ones |
| GraphPage.TypeChipsFacts | src/app/dashboard/graph/page.tsx:188 | the chips are "all" and then every node type exactly once, in order of first appearance |
| GraphPage.Connections | src/app/dashboard/graph/page.tsx:347 | the panel lists incident edges only, at most eight, the first ones in edge order, and every incident edge when there are fewer than eight |
| ArchitecturePage.ModulesFacts | src/app/dashboard/architecture/page.tsx:14 | the modules are exactly the nodes of type "module", each as often as it occurs |
| ArchitecturePage.DependencyFacts | src/app/dashboard/architecture/page.tsx:15-99 | an edge is outgoing (incoming) for a module exactly when it leaves (enters) it and both ends carry the "mod-" prefix, so a module whose id lacks the prefix lists none |
| ArchitecturePage.BusinessLayerFacts | src/app/dashboard/architecture/page.tsx:27 | the layer lists at most five names: the labels of the first service or module nodes, in order |
| EngineeringPage.EngineeringRisksFacts | src/app/dashboard/engineering/page.tsx:36-44 | without a scan the two examples; with one exactly its risks with an "eng-" id or one of the four engineering domains, and none (not the examples) when it has no such risk |
| EngineeringPage.GroupRisks | src/app/dashboard/engineering/page.tsx:46-51 | the reduce loop builds exactly the grouping by domain |
| EngineeringPage.DomainGroupsFacts | src/app/dashboard/engineering/page.tsx:46-51 | each group holds exactly the risks of its domain ("Other" without one) in list order; groups appear in order of first occurrence and their sizes add up to the list's length |
| EngineeringPage.CountsFacts | src/app/dashboard/engineering/page.tsx:67-78 | there are never more affected categories than risks, and none exactly when there is no risk |
| BusinessPage.CurrentCapabilities | src/app/dashboard/business/page.tsx:24 | the scan's mappings are used whenever the scan has a list, even an empty one; otherwise the seed capabilities |
| BusinessPage.FilteredFacts | src/app/dashboard/business/page.tsx:26-28 | "All" shows every capability; another domain exactly those of that domain, each as often as it occurs |
| BusinessPage.Coverage | src/app/dashboard/business/page.tsx:32-38 | the coverage is the percentage mapped/total rounded to the nearest integer with halves up, and 0 for an empty domain |
| BusinessPage.TaxonomyFacts | src/app/dashboard/business/page.tsx:9-40 | one row per taxonomy domain in its order, with its listed capabilities, and a coverage that times the listed count is exactly 100 times the mapped count |
| BusinessPage.CoverageExact | src/app/dashboard/business/page.tsx:37 | for domains listing one or two capabilities the rounding is exact |
| BusinessPage.CoverageNotClamped | src/app/dashboard/business/page.tsx:32-38 | coverage is not capped at 100: three Operations capabilities against two listed give 150 |
| GraphPage.Lookup | src/app/dashboard/graph/page.tsx:123-126 | a table entry is used when present and non-empty, the fallback otherwise |
| GitHubClient.UrlTail | engine/services/github_client.py:34 | after trailing slashes are stripped, the name is taken from the text after the last "/" and holds no "/" |
| GitHubClient.DotGithubAsWritten | engine/services/github_client.py:34 | as written, removing every ".git" turns the repository ".github" into "hub" |
| GitHubClient.RepoName | engine/services/github_client.py:34 | the corrected name (only a trailing ".git" removed) holds no "/" |
| GitHubClient.RepoNameOfSegment | engine/services/github_client.py:34 | the name of a URL whose last segment does not end in ".git" is that segment |
| GitHubClient.RepoNameDropsGitSuffix | engine/services/github_client.py:34 | a trailing ".git" is dropped from the last segment |
| GitHubClient.RepoNameTrailingSlash | engine/services/github_client.py:34 | trailing slashes do not change the name |
| GitHubClient.RepoNameAgrees | engine/services/github_client.py:34 | when the last segment holds no ".git" at all the written and the corrected derivation give that segment |
| GitHubClient.TargetDir | engine/services/github_client.py:34-35 | the clone directory is the clone base joined with the name as written (every ".git" removed), so it ends in that name |
| GitHubClient.DotGithubTargetDir | engine/services/github_client.py:34-35 | as written, the repository ".github" is cloned into the directory "hub" under the clone base |
| GitHubClient.TargetDirOfPlainName | engine/services/github_client.py:34-35 | a URL whose last segment holds no ".git" is cloned into that segment under the clone base |
| GitHubClient.AuthUrlInsertsToken | engine/services/github_client.py:42-43 | a GitHub HTTPS URL gets the token as user name in front of the host |
| GitHubClient.AuthUrlOthers | engine/services/github_client.py:44-45 | a URL not naming github.com is used unchanged |
| GitHubClient.CloneRepo | engine/services/github_client.py:28-51 | without GitPython an ImportError; a clone that succeeds answers the target directory named as written; a failing one a RuntimeError ending in the library's message |
| GitHubClient.Summaries | engine/services/github_client.py:78-87 | one summary per repository of a page, in order |
| GitHubClient.SummarizeLanguage | engine/services/github_client.py:83 | "Unknown" replaces a missing `language` key only, while a JSON null stays null |
| GitHubClient.Raised | engine/services/github_client.py:66-74 | a request raises exactly when `requests.get` fails or a 200 answer's body is not JSON |
| GitHubClient.PageOutcomes | engine/services/github_client.py:65-88 | every answer either raises, ends the listing or lets it continue, and only one of these |
| GitHubClient.ListedRaisesAt | engine/services/github_client.py:65-88 | a page that raises after pages that continued makes the whole listing raise that exception |
| GitHubClient.ListedStopsAt | engine/services/github_client.py:65-88 | nothing after the first page that raises or ends the listing is ever read |
| GitHubClient.ListedLength | engine/services/github_client.py:78-88 | every page before the stop contributes all its repositories, unless a later page raises |
| GitHubClient.ListedStep | engine/services/github_client.py:74-88 | a 200 page holding repositories contributes their summaries, then the next page is read |
| GitHubClient.ListedEnds | engine/services/github_client.py:71-76 | a page that raises ends the listing with its exception, and a non-200 or empty page ends it with nothing more |
| GitHubClient.AppendSummaries | engine/services/github_client.py:78-87 | the inner loop appends one summary per repository of the page, in order, after the repositories already listed |
| GitHubClient.ListRepos | engine/services/github_client.py:53-90 | without `requests` nothing; otherwise the paging loop answers exactly the repositories of the pages before the first non-200 or empty one, in order, and an exception from `requests.get` or `response.json()` escapes with the repositories gathered so far lost |
| GitHubClient.CountCommit | engine/services/github_client.py:121-125 | one commit creates its author's record if missing, adds one to its count and its files to the touched set |
| GitHubClient.Aggregate | engine/services/github_client.py:119-125 | after the loop every author of the commits has one record, in order of first commit, holding their commit count and the union of their files |
| GitHubClient.AggregateStep | engine/services/github_client.py:121-125 | one commit more changes only its author's record, adding the author at the end when new |
| GitHubClient.Rows | engine/services/github_client.py:127-133 | one row per author in dictionary order, with the commit count and the number of distinct files |
| GitHubClient.ContributorRows | engine/services/github_client.py:127-133 | the result loop yields exactly one row per author of the dictionary, in its order |
| GitHubClient.InsertFacts | engine/services/github_client.py:134 | inserting into a list sorted by descending commits keeps it sorted and adds exactly that row |
| GitHubClient.InsertSorted | engine/services/github_client.py:134 | inserting into a list sorted by descending commits keeps it sorted |
| GitHubClient.InsertPermutes | engine/services/github_client.py:134 | inserting adds exactly the inserted row to the list's multiset |
| GitHubClient.SortByCommitsFacts | engine/services/github_client.py:134 | the sort orders by descending commit count and keeps every row |
| GitHubClient.GetContributors | engine/services/github_client.py:112-136 | no rows without GitPython or when reading fails; otherwise the rows of the first 500 commits, sorted by descending commit count |
| GitHubClient.AggregateOf | engine/services/github_client.py:119-125 | the dictionary built from a commit list is the aggregate of that list |
| GitHubClient.AggregatesUnique | engine/services/github_client.py:119-125 | the dictionary after reading a commit list is determined by the list |
| GitHubClient.ContributorsFacts | engine/services/github_client.py:119-133 | each author appears once, exactly when they made a commit, with a count of at least one equal to their commits; the counts add up to the number of commits read |
| GraphBuilder.ElementAttrs | engine/services/graph_builder.py:22-30 | a node keeps its label, type, file and language; a missing start line or complexity becomes 0 |
| GraphBuilder.LabelIndexLast | engine/services/graph_builder.py:33-49 | a label is in the index exactly when a node of the kind carries it (with "()" removed for functions), and it names the last such node |
| GraphBuilder.AddElements | engine/services/graph_builder.py:20-30 | exactly the function and class elements become nodes with attributes; no edge is added |
| GraphBuilder.LinkAll | engine/services/graph_builder.py:37-56 | an edge is added from the node to the indexed target of every listed name the index knows, and to nothing else |
| GraphBuilder.RelateOne | engine/services/graph_builder.py:35-56 | the edges of one node are its resolved calls (functions) and its resolved bases (classes) |
| GraphBuilder.RelationEdges | engine/services/graph_builder.py:35-56 | the second pass adds exactly the call and inheritance edges of all nodes |
| GraphBuilder.ModuleEdges | engine/services/graph_builder.py:63-71 | an import adds an edge from its file's module node to every function or class whose file contains the import's label |
| GraphBuilder.ImportEdges | engine/services/graph_builder.py:59-71 | the third pass adds exactly the module edges of all import nodes |
| GraphBuilder.BuiltGraph | engine/services/graph_builder.py:15-73 | the graph built from scratch is well formed |
| GraphBuilder.BuiltEdges | engine/services/graph_builder.py:32-71 | an edge is in the built graph exactly when a call, a base or an import rule produces it |
| GraphBuilder.BuiltAttributes | engine/services/graph_builder.py:20-30 | only function and class elements carry attributes; module nodes added by edges have none |
| GraphBuilder.CallEdgeToLastFunction | engine/services/graph_builder.py:33-44 | a function calling a name gets an edge to the last function whose label without "()" is that name |
| GraphBuilder.ExtendsEdgeToLastClass | engine/services/graph_builder.py:47-56 | a class with a base gets an edge to the last class with that label |
| GraphBuilder.ExportNodes | engine/services/graph_builder.py:80-92 | one exported node per graph node, in order |
| GraphBuilder.ExportOf | engine/services/graph_builder.py:77-112 | one exported entry per node; the totals count the graph's nodes and edges |
| GraphBuilder.ExportFacts | engine/services/graph_builder.py:77-107 | every node is exported once with its id and the number of other nodes reachable from it; every edge once; the totals are the node and edge counts |
| GraphBuilder.Induced | engine/services/graph_builder.py:135-137 | the subgraph holds exactly the graph's nodes in the set and exactly the edges between them |
| GraphBuilder.SubNodes | engine/services/graph_builder.py:136 | one subgraph node per id |
| GraphBuilder.CodeGraphBuilder.constructor | engine/services/graph_builder.py:11-13 | a builder starts with an empty graph and no current graph |
| GraphBuilder.CodeGraphBuilder.BuildGraph | engine/services/graph_builder.py:15-75 | the graph is rebuilt from the parsed nodes alone, remembered as the current graph and exported |
| GraphBuilder.CodeGraphBuilder.AddElementNodes | engine/services/graph_builder.py:20-30 | the node loop adds exactly the element nodes |
| GraphBuilder.CodeGraphBuilder.AddRelationEdges | engine/services/graph_builder.py:35-56 | the relation loop adds exactly the call and inheritance edges |
| GraphBuilder.CodeGraphBuilder.LinkEach | engine/services/graph_builder.py:37-44 | the inner loop adds an edge for every listed name the index knows |
| GraphBuilder.CodeGraphBuilder.AddImportEdges | engine/services/graph_builder.py:59-71 | the import loop adds exactly the module edges |
| GraphBuilder.CodeGraphBuilder.LinkModule | engine/services/graph_builder.py:63-71 | the inner loop links the module node to every matching element |
| GraphBuilder.CodeGraphBuilder.ExportGraph | engine/services/graph_builder.py:77-112 | the export is that of the current graph |
| GraphBuilder.CodeGraphBuilder.ExportAllNodes | engine/services/graph_builder.py:79-92 | the node loop exports every node in order |
| GraphBuilder.ExportEach | engine/services/graph_builder.py:80-92 | for each listed node, in order, the exported entry carries its id, its attributes, its in- and out-degree and the number of nodes reachable from it |
| GraphBuilder.CodeGraphBuilder.ExportAllEdges | engine/services/graph_builder.py:94-100 | the edge loop exports the edges source by source |
| GraphBuilder.CodeGraphBuilder.GetSubgraph | engine/services/graph_builder.py:114-139 | nothing for an unknown node; otherwise the subgraph induced by the nodes within `depth` steps along edges in either direction (none for a negative depth) |
| GraphBuilder.CodeGraphBuilder.ExpandLevel | engine/services/graph_builder.py:123-133 | one round visits every neighbour of the frontier; the new frontier is what was not visited before |
| GraphBuilder.CodeGraphBuilder.Expand | engine/services/graph_builder.py:125-132 | one frontier node adds its predecessors and successors, and the new ones join the next frontier |
| GraphBuilder.BallLevel | engine/services/graph_builder.py:120-133 | each round moves from the nodes within d steps to those within d + 1 |
| GraphBuilder.VisitAll | engine/services/graph_builder.py:125-132 | every listed neighbour is marked visited, and the unseen ones join the next frontier |
| Graphs.Empty | engine/services/graph_builder.py:12-17 | a new directed graph has no nodes and no edges |
| Graphs.AddNode | engine/services/graph_builder.py:22-30 | adding a node puts a new one last and gives an existing one the new attributes; edges are untouched |
| Graphs.AddEdge | engine/services/graph_builder.py:39-71 | adding an edge creates missing endpoints; an existing edge keeps its place and takes the new attributes, a new one goes last; afterwards exactly the old edges and this one exist |
| Graphs.DegreeSums | engine/services/graph_builder.py:84-85 | the in-degrees, and the out-degrees, of all nodes each add up to the number of edges |
| Graphs.ExportedEdges | engine/services/graph_builder.py:95-100 | listing the edges source by source lists every edge exactly once |
| Graphs.Predecessors | engine/services/graph_builder.py:125 | the predecessors of a node are exactly the sources of its incoming edges |
| Graphs.Successors | engine/services/graph_builder.py:129 | the successors of a node are exactly the targets of its outgoing edges |
| Graphs.Closure | engine/services/graph_builder.py:86 | the reachable set contains the start nodes, lies within the graph and is closed under taking successors |
| Graphs.ClosureLeast | engine/services/graph_builder.py:86 | it is the least such set |
| Graphs.PathInClosure | engine/services/graph_builder.py:86 | the end of every path from the start set is reachable |
| Graphs.ClosureHasPath | engine/services/graph_builder.py:86 | every reachable node ends a path from the start set |
| Graphs.DescendantsIffPath | engine/services/graph_builder.py:86 | another node is a descendant exactly when some path leads to it |
| Graphs.BallContainsCentre | engine/services/graph_builder.py:120 | the centre is always within the visited set |
| Graphs.WalkInBall | engine/services/graph_builder.py:119-133 | the end of every walk of at most d steps along edges in either direction is within the ball of radius d |
| Graphs.BallHasWalk | engine/services/graph_builder.py:119-133 | every node of the ball ends such a walk |
| Graphs.BallWithin | engine/services/graph_builder.py:135 | the ball around a graph node holds graph nodes only |
| BusinessMapper.LabelKeywordInText | engine/services/business_mapper.py:103-118 | the lower-cased label begins the search text, so a keyword of the label is a keyword of the text |
| BusinessMapper.Hits | engine/services/business_mapper.py:114-116 | at most one hit per keyword |
| BusinessMapper.ScoreIsHits | engine/services/business_mapper.py:113-119 | a capability scores one per keyword in the search text and two more per keyword in the label |
| BusinessMapper.CapabilityScoreHits | engine/services/business_mapper.py:113-119 | the score of a capability for a node is its text hits plus twice its label hits, at most three per keyword |
| BusinessMapper.BestSoFar | engine/services/business_mapper.py:109-128 | the running best is the maximum score so far, held by the first capability to reach it, and none while it is 0 |
| BusinessMapper.BestMatch | engine/services/business_mapper.py:101-130 | a match names a capability of the taxonomy, with its name and domain, and a confidence between 65 and 95 |
| BusinessMapper.Scores | engine/services/business_mapper.py:112-119 | one score per capability, in taxonomy order |
| BusinessMapper.Confidence | engine/services/business_mapper.py:127 | a positive score gives a confidence between 65 and 95 |
| BusinessMapper.BestMatchFacts | engine/services/business_mapper.py:101-130 | no match exactly when every capability scores 0; otherwise the first capability with the highest score, with confidence in 65..95 |
| BusinessMapper.FindCapability | engine/services/business_mapper.py:101-130 | the loop over the taxonomy answers that best match |
| BusinessMapper.KeywordScore | engine/services/business_mapper.py:113-119 | the keyword loop computes one capability's score |
| BusinessMapper.MappingsPerNode | engine/services/business_mapper.py:85-97 | exactly one mapping per node that has a match, in node order, carrying that node's id and match |
| BusinessMapper.MappingsFromTaxonomy | engine/services/business_mapper.py:88-128 | every mapping names a capability and domain of the taxonomy and has confidence in 65..95 |
| BusinessMapper.MapToCapabilities | engine/services/business_mapper.py:81-99 | the node loop answers exactly those mappings |
| BusinessMapper.CapabilityCoverage | engine/services/business_mapper.py:132-142 | one entry per capability in taxonomy order, counting the mappings naming it, with its domain and criticality |
| BusinessMapper.CoverageSum | engine/services/business_mapper.py:132-142 | for the mapper's own mappings over a taxonomy with distinct names, the coverage counts add up to the number of mappings |
| BusinessMapper.AddMapping | engine/services/business_mapper.py:148-156 | filing one mapping keeps the domain dictionary well formed |
| BusinessMapper.Ontology | engine/services/business_mapper.py:146-156 | the domain dictionary is well formed |
| BusinessMapper.OntologyKeys | engine/services/business_mapper.py:149-150 | the domains appear once each, in order of first mapping |
| BusinessMapper.OntologyCount | engine/services/business_mapper.py:149-156 | a domain has an entry exactly when some mapping has it, and its node total counts those mappings |
| BusinessMapper.OntologyLabels | engine/services/business_mapper.py:152-155 | under a domain and capability are the labels of exactly the mappings with both, in order |
| BusinessMapper.AddMappingLabels | engine/services/business_mapper.py:152-155 | filing one mapping appends its label to its own domain and capability and changes no other list |
| BusinessMapper.OntologySum | engine/services/business_mapper.py:156-158 | the domains' node totals add up to the total mapping count |
| BusinessMapper.GenerateOntologyReport | engine/services/business_mapper.py:144-158 | the mapping loop builds that nested dictionary and the total |
| CodeScanner.LastIndexOf | engine/services/code_scanner.py:55 | the position found holds the last occurrence of the character; none exactly when it does not occur |
| CodeScanner.Extension | engine/services/code_scanner.py:55 | the extension is empty or a final dot-led suffix without another dot, shorter than the name |
| CodeScanner.ExtensionOfSplit | engine/services/code_scanner.py:55 | a name with a stem that is not all dots has the text from its last dot as extension |
| CodeScanner.NoExtension | engine/services/code_scanner.py:55 | a name without a dot, or with a single leading dot, has no extension |
| CodeScanner.Walk | engine/services/code_scanner.py:50-51 | every walked file lies under the start directory and no directory on its path below it is excluded |
| CodeScanner.WalkSubdirs | engine/services/code_scanner.py:50-51 | the same for the files under a list of subdirectories |
| CodeScanner.ScanLines | engine/services/code_scanner.py:104-128 | one comment flag per line |
| CodeScanner.CommentCount | engine/services/code_scanner.py:99-130 | never more comment lines than lines |
| CodeScanner.CountComments | engine/services/code_scanner.py:99-130 | the line loop carrying the block flag computes that count |
| CodeScanner.NoCommentsCountZero | engine/services/code_scanner.py:107-128 | a language outside the three comment branches (COBOL) never counts a comment |
| CodeScanner.SqlCommentCount | engine/services/code_scanner.py:126-128 | SQL counts exactly the lines starting with "--" once stripped |
| CodeScanner.StripUnspaced | engine/services/code_scanner.py:105 | a line without surrounding white space is its own stripped form |
| CodeScanner.ScanTwoLines | engine/services/code_scanner.py:102-128 | the second line sees the block flag the first leaves |
| CodeScanner.OneLineDocstringLeavesBlockOpen | engine/services/code_scanner.py:110-114 | a line starting with a triple quote toggles the block even when it closes on the same line, so the next line counts as a comment |
| CodeScanner.SameLineBlockCommentStaysOpen | engine/services/code_scanner.py:118-120 | a line containing "/*" opens the block even when "*/" closes it on that line, so the next line counts as a comment |
| CodeScanner.BlankCount | engine/services/code_scanner.py:66 | never more blank lines than lines |
| CodeScanner.CodeLinesAsWrittenNegative | engine/services/code_scanner.py:66-68 | as written, a docstring holding a blank line gives -1 code lines |
| CodeScanner.BlankLineInsideDocstring | engine/services/code_scanner.py:66-112 | any docstring delimiter, a blank line and the delimiter again give -1 code lines |
| CodeScanner.BlankLineInsideBlock | engine/services/code_scanner.py:66-68 | an opening line, a blank line and a closing line, all counted as comments, give -1 code lines in any language |
| CodeScanner.CodeCount | engine/services/code_scanner.py:68 | never more code lines than lines |
| CodeScanner.CodeLines | engine/services/code_scanner.py:68 | the code-line figure the scanner evidently intends, each line classified once, is never negative nor above the line count; the records hold the figure as written |
| CodeScanner.CodeLinesCorrected | engine/services/code_scanner.py:66-68 | the corrected figure exceeds the written one by exactly the blank lines counted as comments, and is never below it |
| CodeScanner.LineClasses | engine/services/code_scanner.py:65-68 | code, blank and comment lines add up to the line count plus the lines that are both blank and comment |
| CodeScanner.LargestIsFirstMaximum | engine/services/code_scanner.py:46-92 | the largest file is the first one of maximal length, and stays ("", 0) without a non-empty file |
| CodeScanner.MetricsCountsAddUp | engine/services/code_scanner.py:86-89 | the per-language and the per-extension counts each add up to the file count |
| CodeScanner.FileRecordFacts | engine/services/code_scanner.py:53-82 | a record is made only for a readable file with a scanned extension, with that extension's language and the file's line count |
| CodeScanner.FileRecord | engine/services/code_scanner.py:53-82 | a record exists exactly when the lower-cased extension is scanned and the file can be read; its code, blank and comment lines add up to its line count |
| CodeScanner.RecordedCodeLinesNegative | engine/services/code_scanner.py:66-68 | as written, a scanned Python file holding a docstring with a blank line is recorded with -1 code lines |
| CodeScanner.RecordedPythonCodeLines | engine/services/code_scanner.py:53-68 | a readable Python file is recorded with lines minus blank minus comment lines as its code-line figure |
| CodeScanner.MetricsOf | engine/services/code_scanner.py:85-92 | the file count is the number of records, no record is longer than the largest, and the largest path stays "" while no file has a line |
| CodeScanner.ScannedFilesFacts | engine/services/code_scanner.py:50-83 | every recorded file has a scanned, lower-cased extension, its language and its line count |
| CodeScanner.ScannedFilesCount | engine/services/code_scanner.py:50-95 | one record per walked file that yields one, none dropped or duplicated |
| CodeScanner.ReadFile | engine/services/code_scanner.py:54-82 | one file's record is built by reading its lines and counting comments line by line, with lines minus blank minus comment lines as the code-line figure |
| CodeScanner.AddFileStep | engine/services/code_scanner.py:85-92 | updating the metrics with one more file gives the metrics of the longer list |
| CodeScanner.LargestSnoc | engine/services/code_scanner.py:91-92 | a new file becomes the largest only when strictly longer |
| CodeScanner.ScanDirectory | engine/services/code_scanner.py:39-97 | the scan answers the records of the walked files with a scanned extension that can be read, in walk order, and the metrics totalled over them; a file whose read raises an `OSError` is skipped |
| CodeScanner.ScanEntries | engine/services/code_scanner.py:50-95 | the loop appends each walked file's record, if it has one, and folds it into the metrics, so that the result is the records of all the entries and their metrics |
| CodeScanner.DetectAntiPatterns | engine/services/code_scanner.py:132-181 | a missing file gives no findings and any other `OSError` escapes with its name; otherwise the findings for the file's text, in the order the checks run |
| CodeScanner.AntiPatterns | engine/services/code_scanner.py:139-174 | every finding is a security finding or, for Python only, a maintainability finding; at most one SQL-injection finding, one per secret pattern and one per function |
| CodeScanner.SecretChecks | engine/services/code_scanner.py:150-158 | one finding per secret pattern that occurs in the lower-cased source, when the source has a quote |
| CodeScanner.OversizedChecks | engine/services/code_scanner.py:160-174 | one finding per function longer than 100 lines, in order |
| CodeScanner.SecretFindingCount | engine/services/code_scanner.py:150-158 | as many secret findings as patterns that occur, and none in a file without quotes |
| CodeScanner.SqlInjectionReported | engine/services/code_scanner.py:139-147 | the SQL-injection finding is reported, first, exactly when the language is Python, Java or JavaScript and the source has "execute(", "+" and "SELECT" or "INSERT" |
| RiskScorer.DefaultThresholds | engine/services/risk_scorer.py:13-19 | the initial thresholds define all five keys the scorer reads |
| RiskScorer.DefaultSeverityBands | engine/services/risk_scorer.py:13-60 | with the initial thresholds: critical exactly from 40 downstream or 40 complexity; high from 20 downstream or 25 complexity below that; medium exactly from 5 downstream below those; low otherwise |
| RiskScorer.MediumNeedsDownstream | engine/services/risk_scorer.py:58-59 | a node is medium only through its downstream count, and more complexity never lowers a medium node |
| RiskScorer.SeverityMonotone | engine/services/risk_scorer.py:53-60 | a larger downstream count or complexity never lowers the severity |
| RiskScorer.DetermineSeverity | engine/services/risk_scorer.py:53-60 | critical exactly when a critical threshold is reached; at least high exactly when a critical or high one is; above low exactly when any threshold is |
| RiskScorer.DetermineRiskType | engine/services/risk_scorer.py:62-69 | "Complexity" exactly above complexity 30, then "High Coupling" above 30 downstream, then "Function Risk" for functions, else "General Risk" |
| RiskScorer.SpecificAdviceIsNotGeneric | engine/services/risk_scorer.py:80-86 | the four specific recommendations differ from the generic one |
| RiskScorer.GenerateRecommendation | engine/services/risk_scorer.py:79-86 | the generic recommendation is given exactly for an unknown risk type |
| RiskScorer.RecommendationIgnoresSeverity | engine/services/risk_scorer.py:79-86 | the recommendation depends on the risk type alone |
| RiskScorer.GenerateDescription | engine/services/risk_scorer.py:71-77 | the description begins with the label, "Unknown" when the node has none |
| RiskScorer.ScoreNode | engine/services/risk_scorer.py:30-51 | no risk exactly for a low node of complexity below 5; otherwise one with id "risk-" plus the node id, the node's label, severity and type, and the type's recommendation |
| RiskScorer.ScoredRisks | engine/services/risk_scorer.py:23-27 | never more risks than nodes |
| RiskScorer.ScoredRisksFromNodes | engine/services/risk_scorer.py:23-27 | every risk is the score of some input node |
| RiskScorer.SortBySeveritySorted | engine/services/risk_scorer.py:28 | the result is ordered critical, high, medium, low |
| RiskScorer.SortBySeverityPermutation | engine/services/risk_scorer.py:28 | sorting keeps exactly the risks, each as often |
| RiskScorer.SortBySeverityStable | engine/services/risk_scorer.py:28 | risks of one severity keep their relative order, as Python's sort is stable |
| RiskScorer.SortBySeverity | engine/services/risk_scorer.py:28 | the sorted list holds exactly the risks of the input |
| RiskScorer.ImpactOf | engine/services/risk_scorer.py:98-104 | an impact entry names the descendant, is downstream, and is high exactly when more than 10 nodes descend from it, medium otherwise |
| RiskScorer.BlastSeverity | engine/services/risk_scorer.py:113 | critical above 30 descendants, high above 10, medium otherwise |
| RiskScorer.Scorer.constructor | engine/services/risk_scorer.py:12-19 | a scorer starts with the initial thresholds |
| RiskScorer.Scorer.UpdateThresholds | engine/services/risk_scorer.py:117-119 | supplied thresholds overwrite or join the current ones and the rest stay |
| RiskScorer.Scorer.ScoreAll | engine/services/risk_scorer.py:21-28 | the risks of the nodes, in node order, sorted stably by severity |
| RiskScorer.Scorer.SimulateImpact | engine/services/risk_scorer.py:88-115 | an error exactly for a missing graph or node; otherwise the descendant and ancestor counts, at most 20 distinct impact entries for descendants, and the blast radius with its severity |
| RiskScorer.ImpactEntries | engine/services/risk_scorer.py:96-104 | the loop builds one impact entry per descendant, in order |
| RiskScorer.ShownImpacts | engine/services/risk_scorer.py:96-110 | the first 20 entries of the list built from distinct descendants name distinct descendants, each with its own entry |
| RiskScorer.DescendantsWithin | engine/services/risk_scorer.py:93 | the descendants of a node are graph nodes |
| RemediationGenerator.EffortBySeverity | engine/services/remediation_generator.py:17-22 | critical risks take high effort, high risks medium, all others low, a risk without severity (read as medium) too |
| RemediationGenerator.CategoryPrecedence | engine/services/remediation_generator.py:26-30 | each category is chosen exactly when no earlier rule applies and its own does: security, performance, architecture, compliance, else refactoring |
| RemediationGenerator.Category | engine/services/remediation_generator.py:26-30 | the category is one of security, performance, architecture, compliance and refactoring, and security whenever the type names Security |
| RemediationGenerator.AffectedFileIsLastSegment | engine/services/remediation_generator.py:41 | the affected file is the node id's last "/"-segment, a suffix free of "/" |
| RemediationGenerator.Pattern | engine/services/remediation_generator.py:42 | the pattern is the recommendation's text before its first ".", "General Refactoring" without one |
| RemediationGenerator.SuggestionIdInjective | engine/services/remediation_generator.py:33 | two suggestion ids are equal only for the same position and node |
| RemediationGenerator.DerivedBounds | engine/services/remediation_generator.py:22-24 | critical risks promise 25..45 points of reduction for 10..30 days; others 10..25 points for 1..10 days |
| RemediationGenerator.SuggestionsDistinct | engine/services/remediation_generator.py:33-43 | the suggestions of one run have distinct ids and priorities 1, 2, ... in order |
| RemediationGenerator.ChooseCategory | engine/services/remediation_generator.py:26-30 | the reassignment chain computes the category by that precedence |
| RemediationGenerator.Suggest | engine/services/remediation_generator.py:17-44 | the suggestion for the risk at a position carries the fields derived from it, with the random figures in their ranges |
| RemediationGenerator.GenerateFromRisks | engine/services/remediation_generator.py:12-47 | one suggestion for each of the first ten risks, in order |
| TenantManager.DefaultTenants | engine/services/tenant_manager.py:15-38 | without a store there are exactly the freemium, premium and enterprise tenants, each under its own id, with no keys and no repositories |
| TenantManager.FeatureAllowed | engine/services/tenant_manager.py:76-88 | the two free features are always allowed; the four premium ones exactly for premium and enterprise; the three enterprise ones exactly for enterprise; any other feature never |
| TenantManager.FeatureAccessMonotone | engine/services/tenant_manager.py:76-86 | every feature allowed to freemium is allowed to premium, and every one allowed to premium to enterprise |
| TenantManager.UnknownTierIsFreemium | engine/services/tenant_manager.py:76-88 | a tier outside the three gets exactly the freemium features |
| TenantManager.CountOf | engine/services/tenant_manager.py:94-104 | a missing repository count reads as 0 |
| TenantManager.RepoLimitOk | engine/services/tenant_manager.py:96-100 | another repository is refused exactly for freemium from 1 and premium from 10; enterprise and any other tier always pass |
| TenantManager.Manager.constructor | engine/services/tenant_manager.py:9-44 | the manager starts from the stored records, or from the three defaults when there is no store |
| TenantManager.Manager.GetTenant | engine/services/tenant_manager.py:50-52 | a known id gives its tenant, another the freemium record, and nothing only when that is missing too |
| TenantManager.Manager.CheckFeatureAccess | engine/services/tenant_manager.py:71-88 | the feature gate applied to the tier of the tenant found; no answer when none is found |
| TenantManager.Manager.CheckRepoLimit | engine/services/tenant_manager.py:90-100 | the quota applied to the tier and count of the tenant found; no answer when none is found |
| TenantManager.Manager.UpdateTenantTier | engine/services/tenant_manager.py:57-62 | succeeds exactly for a known tenant and one of the three tiers, then changes only that tenant's tier; otherwise nothing changes |
| TenantManager.Manager.UpdateApiKeys | engine/services/tenant_manager.py:64-69 | succeeds exactly for a known tenant and provider openai or anthropic, then sets only that one key; otherwise nothing changes |
| TenantManager.Manager.IncrementRepoCount | engine/services/tenant_manager.py:102-105 | a known tenant's count rises by exactly one, a missing count read as 0; an unknown id changes nothing |
| TenantManager.QuotaAfterFirstRepo | engine/services/tenant_manager.py:96-104 | after one repository from zero a freemium tenant is at its quota, a premium one still has room |

## Left out

- I/O is not modelled. This covers reading and writing files, `os.walk`,
  `os.path.getsize`, the tenant store's `_load`/`_save`, `Repo.clone_from`,
  `requests.get` and the dashboard's `fetch` calls. Their results are
  parameters: a directory tree and a content map, a list of API pages, a
  clone outcome, a commit history, the analysis answer, a clock value and
  the storage map.
- Python's `ast.parse` and `re.finditer` are not modelled. The syntax tree
  and the regular-expression matches are inputs to `AstParser`. A source
  that does not parse is a missing tree, which the parsers catch as a
  `SyntaxError`. The `ValueError` that `ast.parse` raises for a NUL byte
  before Python 3.12, and a `RecursionError` on very deep nesting, would
  escape; they are not modelled.
- AstParser.PythonNodesFor reads `end_lineno` as an optional attribute and
  falls back to the first line when it is absent, as `getattr` does.
- Strings.Lower, Strings.Capitalize and Strings.Title map ASCII letters
  only. Python's `str.lower`, `capitalize` and `title` follow Unicode: for
  one, the Kelvin sign lowers to "k". Every member built on them inherits
  this, and the lines below name each one.
- CodeScanner.FileRecord, CodeScanner.ScanDirectory and
  CodeScanner.ScanEntries lower-case the extension by ASCII only, so a
  non-ASCII letter in an extension is never matched against the language
  table.
- CodeScanner.AntiPatterns and CodeScanner.DetectAntiPatterns look for the
  secret patterns in the ASCII-lower-cased source.
- BfsiAnalyzer.ImpactOf and EngineeringAnalyzer.ImpactOf search the
  ASCII-lower-cased label and path, and capitalise or title-case the domain
  and risk by ASCII only.
- BusinessMapper.BestMatch scores keywords against the ASCII-lower-cased
  label, file and calls.
- Floating point is left out:
  - `comment_ratio` and `size_bytes` of a scanned file;
  - the edge width on the graph page;
  - the cytoscape and d3 layouts.
- BusinessPage.Coverage takes the percentage on exact rationals with halves
  rounded up. That agrees with `Math.round` on the float quotient for the
  taxonomy's totals of one and two (`CoverageExact`). It is not shown for
  other totals.
- GitHubClient.ListRepos models the answers of the API as lists of
  repository records. A body that is JSON but not a list, and a record
  without `name`, `full_name` or `clone_url` (a `KeyError` in the source),
  are not modelled.
- GitHubClient.Summarize keeps a JSON null only for `language`. A null
  `default_branch`, `size` or `updated_at` would also stay null in the
  source; the model reads those keys as present or absent only.
- NetworkX `density` and `number_weakly_connected_components` are not
  exported by the model.
- RiskScorer.Scorer.SimulateImpact: Python lists the descendants in the
  iteration order of the set NetworkX returns. The model states which
  entries appear, at most 20 and distinct, but not their order.
- GitHubClient.GetContributors states that the result is sorted by
  descending commit count and is a permutation of the dictionary rows. It
  does not state that authors with equal counts keep their first-commit
  order, although Python's sort is stable.
- `get_commit_history` and `get_all_tenants` are not part of this model.
  They are plain listings outside the modelled logic.
- Concurrency is left out. This covers overlapping `runScan` calls, React's
  batching of state updates, and other tabs writing `localStorage`. Each
  call is modelled as one sequential step.
- ScanContext.ScanProvider.RunScan models the in-flight flag's final value
  only. Its intermediate `true` is not observable in a sequential model.
- `JSON.parse` is modelled only for the shapes the dashboard writes. These
  are flat records of string fields and arrays of them, without white
  space, with only `"` and `\` escaped. Any other valid JSON reads as
  malformed in the model:
  - a stored audit log of another shape makes the scan fail, where the
    browser would prepend to it;
  - a stored user of another shape reads as no user.
- The dashboard pages take the scan data as already-parsed values.
- The risk page reads `reason`, `risk_type` and `affected_downstream_count`
  from scan risks, which the scorer does not emit. Each side is modelled
  with its own record, and the two are not connected.
- EngineeringPage.DomainGroups keeps all group keys in insertion order.
  JavaScript objects list integer-like keys first. This only matters for a
  domain named by digits.
- The following are out of scope: `engine/main.py`, the vector store, the
  LLM agent, the presentation-only pages and components, the constant API
  routes, and the seed fixtures beyond the constants the modelled pages
  use.
- Tap events and the selected node on the graph and architecture pages are
  not modelled. The selected node is a parameter of the functions that
  read it.

## Findings

| source | as written | input that shows it | evidently intended | confidence | as-written member | corrected member |
|---|---|---|---|---|---|---|
| engine/services/github_client.py:34-35 | `.replace(".git", "")` deletes every ".git" in the last URL segment | `https://github.com/octo/.github` is cloned into the directory `hub` | drop only a trailing ".git" suffix | not executed | GitHubClient.DotGithubTargetDir | GitHubClient.RepoNameDropsGitSuffix |
| engine/services/code_scanner.py:66-68 | `code_lines = loc - blank_lines - comment_lines` subtracts a blank line inside a docstring or block comment twice | a Python file with the lines `"""`, an empty line, `"""` is recorded with -1 code lines | each line counted once, so code lines are never negative | not executed | CodeScanner.RecordedCodeLinesNegative | CodeScanner.CodeLinesCorrected |

The clone directory and the scanned records keep the behaviour as written,
since that is what the program does. The corrected definitions,
`GitHubClient.RepoName` and `CodeScanner.CodeLines`, stand beside them
with their intended properties proved, and `GitHubClient.RepoNameAgrees` and
`CodeScanner.CodeLinesCorrected` state exactly where each pair agrees.
