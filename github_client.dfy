/**
 * The string logic and aggregation of the git client
 * (`engine/services/github_client.py`): the repository name, clone
 * directory and authenticated URL derived by `clone_repo`, the page loop of
 * `list_repos`, and the per-author aggregation of `get_contributors`.  The
 * git library, the HTTP API and the file system are replaced by their
 * answers, given as parameters.
 */
module GitHubClient {
  import opened Wrappers
  import opened Strings
  import opened Collections

  // ---------------------------------------------------------------------------
  // clone_repo

  /** `url.rstrip("/").split("/")[-1]`: the last path segment of the URL. */
  function UrlTail(url: string): (r: string)
    ensures '/' !in r
  {
    LastSegment(RStripChar(url, '/'), '/')
  }

  /** The repository name as `clone_repo` computes it: every ".git" in the last segment is deleted. */
  function RepoNameAsWritten(url: string): string {
    ReplaceAll(UrlTail(url), ".git", "")
  }

  /** The repository `.github` (an organisation's profile repository) is cloned under the name `hub`. */
  lemma DotGithubAsWritten()
    ensures RepoNameAsWritten("https://github.com/octo/.github") == "hub"
  {
    var prefix, seg := "https://github.com/octo", ".github";
    assert "https://github.com/octo/.github" == prefix + "/" + seg;
    assert '/' !in seg;
    SegmentAfterSlash(prefix, seg);
    assert seg[..4] == ".git" && seg[4..] == "hub";
    assert ReplaceAll(seg, ".git", "") == "" + ReplaceAll("hub", ".git", "");
  }

  /** The repository name with only a trailing ".git" removed, as the derivation evidently intends. */
  function RepoName(url: string): (name: string)
    ensures '/' !in name
  {
    var tail := UrlTail(url);
    if EndsWith(tail, ".git") then tail[..|tail| - 4] else tail
  }

  /** The URL tail of `prefix/seg` is `seg`. */
  lemma SegmentAfterSlash(prefix: string, seg: string)
    requires seg != [] && '/' !in seg
    ensures UrlTail(prefix + "/" + seg) == seg
  {
    var u := prefix + "/" + seg;
    assert u[|u| - 1] == seg[|seg| - 1];
    assert RStripChar(u, '/') == u;
    LastSegmentAfter(prefix, '/', seg);
  }

  /** The name of a URL whose last segment does not end in ".git" is that segment. */
  lemma RepoNameOfSegment(prefix: string, seg: string)
    requires seg != [] && '/' !in seg && !EndsWith(seg, ".git")
    ensures RepoName(prefix + "/" + seg) == seg
  {
    SegmentAfterSlash(prefix, seg);
  }

  /** A trailing ".git" is dropped from the name. */
  lemma RepoNameDropsGitSuffix(prefix: string, seg: string)
    requires seg != [] && '/' !in seg
    ensures RepoName(prefix + "/" + seg + ".git") == seg
  {
    var full := seg + ".git";
    assert prefix + "/" + seg + ".git" == prefix + "/" + full;
    SegmentAfterSlash(prefix, full);
    assert full[..|full| - 4] == seg;
    assert EndsWith(full, ".git") by {
      assert full[|full| - 4..] == ".git";
    }
  }

  /** Trailing slashes do not change the name. */
  lemma RepoNameTrailingSlash(prefix: string, seg: string)
    requires seg != [] && '/' !in seg
    ensures UrlTail(prefix + "/" + seg + "/") == UrlTail(prefix + "/" + seg) == seg
  {
    var u := prefix + "/" + seg;
    SegmentAfterSlash(prefix, seg);
    assert (u + "/")[..|u + "/"| - 1] == u;
    assert RStripChar(u + "/", '/') == RStripChar(u, '/');
  }

  /** Where the last segment holds no ".git" at all, the two derivations agree. */
  lemma RepoNameAgrees(prefix: string, seg: string)
    requires seg != [] && '/' !in seg && !Contains(seg, ".git")
    ensures RepoNameAsWritten(prefix + "/" + seg) == RepoName(prefix + "/" + seg) == seg
  {
    if |seg| >= 4 {
      assert !OccursAt(seg, ".git", |seg| - 4);
      assert seg[|seg| - 4..|seg|] == seg[|seg| - 4..];
    }
    RepoNameOfSegment(prefix, seg);
    SegmentAfterSlash(prefix, seg);
    ReplaceAllAbsent(seg, ".git", "");
  }

  /**
   * `os.path.join(clone_base, repo_name)`, with the name as `clone_repo`
   * computes it: the clone directory ends in that name.
   */
  function TargetDir(cloneBase: string, url: string): (dir: string)
    ensures EndsWith(dir, RepoNameAsWritten(url))
  {
    PathJoin(cloneBase, RepoNameAsWritten(url))
  }

  /** The profile repository `.github` is cloned into, and reported as, `<base>/hub`. */
  lemma DotGithubTargetDir(cloneBase: string)
    ensures TargetDir(cloneBase, "https://github.com/octo/.github") == PathJoin(cloneBase, "hub")
  {
    DotGithubAsWritten();
  }

  /** Where the last segment holds no ".git", the clone directory is named after the segment, as intended. */
  lemma TargetDirOfPlainName(cloneBase: string, prefix: string, seg: string)
    requires seg != [] && '/' !in seg && !Contains(seg, ".git")
    ensures TargetDir(cloneBase, prefix + "/" + seg) == PathJoin(cloneBase, seg)
  {
    RepoNameAgrees(prefix, seg);
  }

  const Https := "https://"
  const GithubHost := "github.com"

  /** The URL git is given: for GitHub URLs, the token is placed after every "https://". */
  function AuthUrl(url: string, pat: string): string {
    if Contains(url, GithubHost) then ReplaceAll(url, Https, Https + pat + "@") else url
  }

  /** A GitHub HTTPS URL gets the token as user name. */
  lemma AuthUrlInsertsToken(rest: string, pat: string)
    requires !Contains(GithubHost + rest, Https)
    ensures AuthUrl(Https + GithubHost + rest, pat) == Https + pat + "@" + GithubHost + rest
  {
    ContainsMiddle(Https, GithubHost, rest);
    assert Https + GithubHost + rest == Https + (GithubHost + rest);
    ReplaceAllFront(Https, GithubHost + rest, Https + pat + "@");
    ReplaceAllAbsent(GithubHost + rest, Https, Https + pat + "@");
  }

  /** Other URLs are used unchanged. */
  lemma AuthUrlOthers(url: string, pat: string)
    requires !Contains(url, GithubHost)
    ensures AuthUrl(url, pat) == url
  {
  }

  /** The exceptions `clone_repo` raises. */
  datatype CloneError = ImportError(message: string) | RuntimeError(message: string)

  /**
   * `clone_repo`, given whether GitPython is installed and how the clone
   * itself ends (`None` for success, otherwise the library's message).
   */
  function CloneRepo(gitAvailable: bool, cloneBase: string, url: string, pat: string, cloneFailure: Option<string>)
    : (r: Result<string, CloneError>)
    ensures !gitAvailable ==> r.Err? && r.error.ImportError?
    ensures gitAvailable && cloneFailure.None? ==> r == Ok(TargetDir(cloneBase, url))
    ensures gitAvailable && cloneFailure.Some? ==> r.Err? && r.error.RuntimeError? && EndsWith(r.error.message, cloneFailure.value)
  {
    if !gitAvailable then Err(ImportError("GitPython is required for GitHub operations"))
    else match cloneFailure
      case None => Ok(TargetDir(cloneBase, url))
      case Some(e) =>
        var r := Err(RuntimeError("Failed to clone repository: " + e));
        assert r.error.message[|r.error.message| - |e|..] == e;
        r
  }

  // ---------------------------------------------------------------------------
  // list_repos

  /**
   * One repository object of the organisation listing; optional keys may be
   * absent (`None`), and `language` may also be JSON null (`Some(None)`),
   * which the API sends for a repository without a detected language.
   */
  datatype RepoJson = RepoJson(
    name: string, fullName: string, cloneUrl: string, language: Option<Option<string>>,
    defaultBranch: Option<string>, size: Option<int>, updatedAt: Option<string>)

  /**
   * One request of the page loop: an `Answer` with its status code and its
   * body decoded as a list of repositories (`None` when the body is not
   * JSON, so that `response.json()` raises), or `Failed` when `requests.get`
   * itself raises (a timeout, a refused connection), with the exception's name.
   */
  datatype Response = Answer(status: int, body: Option<seq<RepoJson>>) | Failed(error: string)

  /** The exceptions that escape `list_repos`. */
  datatype ListError = RequestError(name: string) | JsonDecodeError

  /** One entry of the result; `language` is `None` where the API sent null. */
  datatype RepoInfo = RepoInfo(
    name: string, fullName: string, url: string, language: Option<string>, defaultBranch: string, size: int,
    updatedAt: string)

  /** `dict.get(key, default)`: the default replaces an absent key only; a null `language` stays null. */
  function Summarize(r: RepoJson): RepoInfo {
    RepoInfo(r.name, r.fullName, r.cloneUrl, r.language.GetOr(Some("Unknown")), r.defaultBranch.GetOr("main"),
      r.size.GetOr(0), r.updatedAt.GetOr(""))
  }

  /** "Unknown" stands for a missing `language` key, while a JSON null is passed through as null. */
  lemma SummarizeLanguage(r: RepoJson)
    requires r.language != Some(Some("Unknown"))
    ensures Summarize(r).language == Some("Unknown") <==> r.language.None?
    ensures Summarize(r).language.None? <==> r.language == Some(None)
  {
  }

  function Summaries(data: seq<RepoJson>): (r: seq<RepoInfo>)
    ensures |r| == |data| && forall i | 0 <= i < |data| :: r[i] == Summarize(data[i])
  {
    seq(|data|, i requires 0 <= i < |data| => Summarize(data[i]))
  }

  /** The exception a request makes `list_repos` raise, if any: a failed request, or a 200 answer that is not JSON. */
  function Raised(resp: Response): (e: Option<ListError>)
    ensures e.Some? <==> resp.Failed? || (resp.status == 200 && resp.body.None?)
  {
    match resp
    case Failed(name) => Some(RequestError(name))
    case Answer(status, body) => if status == 200 && body.None? then Some(JsonDecodeError) else None
  }

  /** A page ends the listing normally when its status is not 200 or it holds no repository. */
  predicate Stops(resp: Response) {
    resp.Answer? && (resp.status != 200 || resp.body == Some([]))
  }

  /** A page the loop reads and moves past: a 200 answer holding repositories. */
  predicate Continues(resp: Response) {
    resp.Answer? && resp.status == 200 && resp.body.Some? && resp.body.value != []
  }

  /** Every answer either raises, stops the listing or lets it continue, and only one of these. */
  lemma PageOutcomes(resp: Response)
    ensures Raised(resp).Some? || Stops(resp) || Continues(resp)
    ensures !(Raised(resp).Some? && Stops(resp)) && !(Raised(resp).Some? && Continues(resp))
    ensures !(Stops(resp) && Continues(resp))
  {
  }

  /** The repositories collected so far, put in front of what the rest of the loop yields. */
  function Prefixed(repos: seq<RepoInfo>, r: Result<seq<RepoInfo>, ListError>): Result<seq<RepoInfo>, ListError> {
    match r
    case Ok(rest) => Ok(repos + rest)
    case Err(e) => Err(e)
  }

  /**
   * What `list_repos` returns or raises when page `p` (from 1) answers
   * `pages[p - 1]`; pages beyond the given ones answer an empty list.
   */
  function Listed(pages: seq<Response>): Result<seq<RepoInfo>, ListError> {
    if pages == [] then Ok([])
    else if Raised(pages[0]).Some? then Err(Raised(pages[0]).value)
    else if Stops(pages[0]) then Ok([])
    else Prefixed(Summaries(pages[0].body.value), Listed(pages[1..]))
  }

  /** Nothing after the first page that stops the listing or raises is ever read. */
  lemma {:induction false} ListedStopsAt(pages: seq<Response>, k: nat, later: seq<Response>)
    requires k < |pages| && !Continues(pages[k])
    ensures Listed(pages) == Listed(pages[..k + 1] + later)
  {
    if k > 0 && Continues(pages[0]) {
      assert (pages[..k + 1] + later)[1..] == pages[1..][..k] + later;
      ListedStopsAt(pages[1..], k - 1, later);
    }
  }

  /** An exception on any page read propagates: the repositories of the earlier pages are lost. */
  lemma {:induction false} ListedRaisesAt(pages: seq<Response>, k: nat)
    requires k < |pages| && forall j | 0 <= j < k :: Continues(pages[j])
    requires Raised(pages[k]).Some?
    ensures Listed(pages) == Err(Raised(pages[k]).value)
  {
    if k > 0 {
      assert forall j | 0 <= j < k - 1 :: pages[1..][j] == pages[j + 1];
      ListedRaisesAt(pages[1..], k - 1);
    }
  }

  /** Every page before the stop contributes all its repositories, in order, unless a later page raises. */
  lemma {:induction false} ListedLength(pages: seq<Response>, k: nat)
    requires k <= |pages| && forall j | 0 <= j < k :: Continues(pages[j])
    ensures Listed(pages).Ok? ==> |Listed(pages).value| >= SumOf(pages[..k], PageSize)
  {
    if k > 0 {
      assert forall j | 0 <= j < k - 1 :: pages[1..][j] == pages[j + 1];
      ListedLength(pages[1..], k - 1);
      SumOfConcat([pages[0]], pages[1..][..k - 1], PageSize);
      assert pages[..k] == [pages[0]] + pages[1..][..k - 1];
      assert SumOf([pages[0]], PageSize) == |pages[0].body.value| by {
        assert [pages[0]][..0] == [];
      }
    }
  }

  function PageSize(resp: Response): int {
    if resp.Answer? && resp.body.Some? then |resp.body.value| else 0
  }

  /**
   * `list_repos`, given whether `requests` is installed and the answers of
   * the API: fetch page 1, 2, ... until a failing or empty page; an
   * exception from `requests.get` or `response.json()` escapes.
   */
  method ListRepos(requestsAvailable: bool, pages: seq<Response>) returns (r: Result<seq<RepoInfo>, ListError>)
    ensures r == if requestsAvailable then Listed(pages) else Ok([])
  {
    if !requestsAvailable {
      return Ok([]);
    }
    var repos := [];
    var page := 1;
    assert pages[0..] == pages;
    assert Listed(pages).Ok? ==> [] + Listed(pages).value == Listed(pages).value;
    while true
      invariant 1 <= page <= |pages| + 1
      invariant Prefixed(repos, Listed(pages[page - 1..])) == Listed(pages)
      decreases |pages| + 1 - page
    {
      if page > |pages| {
        assert repos + [] == repos;
        return Ok(repos);
      }
      var response := pages[page - 1];
      if response.Failed? {
        ListedEnds(pages, page);
        return Err(RequestError(response.error));
      }
      if response.status != 200 {
        ListedEnds(pages, page);
        assert repos + [] == repos;
        return Ok(repos);
      }
      if response.body.None? {
        ListedEnds(pages, page);
        return Err(JsonDecodeError);
      }
      var data := response.body.value;
      if data == [] {
        ListedEnds(pages, page);
        assert repos + [] == repos;
        return Ok(repos);
      }
      ListedStep(pages, page);
      PrefixedTwice(repos, Summaries(data), Listed(pages[page..]));
      repos := AppendSummaries(repos, data);
      page := page + 1;
    }
  }

  /** A page that raises or stops the listing ends it. */
  lemma ListedEnds(pages: seq<Response>, page: nat)
    requires 1 <= page <= |pages| && !Continues(pages[page - 1])
    ensures Raised(pages[page - 1]).Some? ==> Listed(pages[page - 1..]) == Err(Raised(pages[page - 1]).value)
    ensures Raised(pages[page - 1]).None? ==> Listed(pages[page - 1..]) == Ok([])
  {
    assert pages[page - 1..][0] == pages[page - 1];
  }

  /** A page that does not stop the listing contributes its repositories, then the listing goes on. */
  lemma ListedStep(pages: seq<Response>, page: nat)
    requires 1 <= page <= |pages| && Continues(pages[page - 1])
    ensures Listed(pages[page - 1..]) == Prefixed(Summaries(pages[page - 1].body.value), Listed(pages[page..]))
  {
    assert pages[page - 1..][1..] == pages[page..];
  }

  lemma PrefixedTwice(a: seq<RepoInfo>, b: seq<RepoInfo>, r: Result<seq<RepoInfo>, ListError>)
    ensures Prefixed(a, Prefixed(b, r)) == Prefixed(a + b, r)
  {
    if r.Ok? {
      assert a + (b + r.value) == (a + b) + r.value;
    }
  }

  /** The inner loop of `list_repos`: one summary per repository of the page, appended in order. */
  method AppendSummaries(repos: seq<RepoInfo>, data: seq<RepoJson>) returns (out: seq<RepoInfo>)
    ensures out == repos + Summaries(data)
  {
    out := repos;
    var j := 0;
    while j < |data|
      invariant 0 <= j <= |data| && |out| == |repos| + j
      invariant forall k | 0 <= k < |repos| :: out[k] == repos[k]
      invariant forall k | 0 <= k < j :: out[|repos| + k] == Summarize(data[k])
    {
      out := out + [Summarize(data[j])];
      j := j + 1;
    }
    ghost var expected := repos + Summaries(data);
    assert forall k | 0 <= k < |out| :: out[k] == expected[k];
  }

  // ---------------------------------------------------------------------------
  // get_contributors

  /** A commit as the aggregation sees it: its author and the files its diff touches. */
  datatype Commit = Commit(author: string, files: set<string>)

  /** The running record of one author. */
  datatype Tallied = Tallied(commits: nat, filesTouched: set<string>)

  /** One entry of the result. */
  datatype Contributor = Contributor(name: string, commits: nat, filesTouched: nat)

  /** At most this many commits are read. */
  const MaxCommits: nat := 500

  function AuthorOf(c: Commit): string {
    c.author
  }

  /** The files touched by `author`'s commits in `commits`. */
  function FilesBy(commits: seq<Commit>, author: string): set<string> {
    if commits == [] then {}
    else
      var last := commits[|commits| - 1];
      FilesBy(commits[..|commits| - 1], author) + (if last.author == author then last.files else {})
  }

  /** What the contributors dictionary holds after reading `commits`. */
  ghost predicate Aggregates(d: ODict<string, Tallied>, commits: seq<Commit>) {
    d.keys == Distinct(Project(commits, AuthorOf))
    && (forall a :: a in d.entries <==> a in d.keys)
    && forall a | a in d.entries ::
         d.entries[a] == Tallied(KeyCount(commits, AuthorOf, a), FilesBy(commits, a))
  }

  /** The body of the commit loop of `get_contributors`: create the author's record if missing, then count the commit. */
  method CountCommit(d: ODict<string, Tallied>, c: Commit) returns (d': ODict<string, Tallied>)
    ensures d' == Record(d, c)
  {
    var author := c.author;
    d' := d;
    if author !in d'.entries {
      d' := d'.Put(author, Tallied(0, {}));
    }
    var t := d'.entries[author];
    d' := d'.Put(author, Tallied(t.commits + 1, t.filesTouched + c.files));
  }

  /** The dictionary loop of `get_contributors`. */
  method Aggregate(commits: seq<Commit>) returns (d: ODict<string, Tallied>)
    ensures Aggregates(d, commits)
  {
    d := ODict([], map[]);
    var i := 0;
    while i < |commits|
      invariant 0 <= i <= |commits|
      invariant Aggregates(d, commits[..i])
    {
      AggregateStep(d, commits[..i], commits[i]);
      d := CountCommit(d, commits[i]);
      TakeSnoc(commits, i);
      i := i + 1;
    }
    assert commits[..i] == commits;
  }

  /** The dictionary after one more commit: create the author's record if missing, then count the commit. */
  function Record(d: ODict<string, Tallied>, c: Commit): ODict<string, Tallied> {
    var d1 := if c.author !in d.entries then d.Put(c.author, Tallied(0, {})) else d;
    var t := d1.entries[c.author];
    d1.Put(c.author, Tallied(t.commits + 1, t.filesTouched + c.files))
  }

  /** One commit more: its author is added once, at the end if new, and only its record changes. */
  lemma AggregateStep(d: ODict<string, Tallied>, commits: seq<Commit>, c: Commit)
    requires Aggregates(d, commits)
    ensures Aggregates(Record(d, c), commits + [c])
  {
    var a := c.author;
    var s := commits + [c];
    var t := if a in d.entries then d.entries[a] else Tallied(0, {});
    var d2 := Record(d, c);
    assert d2.keys == (if a in d.entries then d.keys else d.keys + [a]);
    assert d2.entries == d.entries[a := Tallied(t.commits + 1, t.filesTouched + c.files)];
    SnocKeys(commits, c);
    if a !in d.entries {
      NotAuthorNone(commits, a);
    }
    RecordEntries(d, commits, c, t);
  }

  /** The records after one commit more: the author's is counted once more, every other one is unchanged. */
  lemma RecordEntries(d: ODict<string, Tallied>, commits: seq<Commit>, c: Commit, t: Tallied)
    requires forall b | b in d.entries :: d.entries[b] == Tallied(KeyCount(commits, AuthorOf, b), FilesBy(commits, b))
    requires t == Tallied(KeyCount(commits, AuthorOf, c.author), FilesBy(commits, c.author))
    ensures var e := d.entries[c.author := Tallied(t.commits + 1, t.filesTouched + c.files)];
      forall b | b in e :: e[b] == Tallied(KeyCount(commits + [c], AuthorOf, b), FilesBy(commits + [c], b))
  {
    var e := d.entries[c.author := Tallied(t.commits + 1, t.filesTouched + c.files)];
    forall b | b in e
      ensures e[b] == Tallied(KeyCount(commits + [c], AuthorOf, b), FilesBy(commits + [c], b))
    {
      if b == c.author {
        SnocCountsAuthor(commits, c);
      } else {
        SnocCountsOther(commits, c, b);
      }
    }
  }

  /** The authors after one commit more. */
  lemma SnocKeys(commits: seq<Commit>, c: Commit)
    ensures Distinct(Project(commits + [c], AuthorOf)) ==
      var d := Distinct(Project(commits, AuthorOf));
      if c.author in d then d else d + [c.author]
  {
    ProjectSnoc(commits, c, AuthorOf);
    var p := Project(commits, AuthorOf) + [c.author];
    assert p[..|p| - 1] == Project(commits, AuthorOf);
  }

  /** The record of a commit's author after that commit. */
  lemma SnocCountsAuthor(commits: seq<Commit>, c: Commit)
    ensures KeyCount(commits + [c], AuthorOf, c.author) == KeyCount(commits, AuthorOf, c.author) + 1
    ensures FilesBy(commits + [c], c.author) == FilesBy(commits, c.author) + c.files
  {
    assert (commits + [c])[..|commits|] == commits;
  }

  /** The record of any other author after a commit. */
  lemma SnocCountsOther(commits: seq<Commit>, c: Commit, b: string)
    requires c.author != b
    ensures KeyCount(commits + [c], AuthorOf, b) == KeyCount(commits, AuthorOf, b)
    ensures FilesBy(commits + [c], b) == FilesBy(commits, b)
  {
    assert (commits + [c])[..|commits|] == commits;
  }

  /** An author with no commit in the list has no count and no files. */
  lemma {:induction false} NotAuthorNone(commits: seq<Commit>, a: string)
    requires a !in Project(commits, AuthorOf)
    ensures KeyCount(commits, AuthorOf, a) == 0 && FilesBy(commits, a) == {}
  {
    if commits != [] {
      var init := commits[..|commits| - 1];
      ProjectSnoc(init, commits[|commits| - 1], AuthorOf);
      assert commits == init + [commits[|commits| - 1]];
      NotAuthorNone(init, a);
    }
  }

  /** The result rows, in dictionary (first-commit) order. */
  function Rows(d: ODict<string, Tallied>): (r: seq<Contributor>)
    requires forall a | a in d.keys :: a in d.entries
    ensures |r| == |d.keys|
    ensures forall i | 0 <= i < |r| ::
      r[i] == Contributor(d.keys[i], d.entries[d.keys[i]].commits, |d.entries[d.keys[i]].filesTouched|)
  {
    seq(|d.keys|, i requires 0 <= i < |d.keys| =>
      Contributor(d.keys[i], d.entries[d.keys[i]].commits, |d.entries[d.keys[i]].filesTouched|))
  }

  /** Rows ordered by commit count, largest first. */
  predicate SortedByCommits(rows: seq<Contributor>) {
    forall i, j | 0 <= i < j < |rows| :: rows[i].commits >= rows[j].commits
  }

  /** Places `x` after every trailing row with fewer commits, so equal counts keep their order. */
  function Insert(x: Contributor, rows: seq<Contributor>): seq<Contributor> {
    if rows == [] || rows[|rows| - 1].commits >= x.commits then rows + [x]
    else Insert(x, rows[..|rows| - 1]) + [rows[|rows| - 1]]
  }

  /** Inserting into a sorted list keeps it sorted and adds exactly `x`. */
  lemma InsertFacts(x: Contributor, rows: seq<Contributor>)
    requires SortedByCommits(rows)
    ensures SortedByCommits(Insert(x, rows))
    ensures multiset(Insert(x, rows)) == multiset(rows) + multiset{x}
  {
    InsertSorted(x, rows);
    InsertPermutes(x, rows);
  }

  /** A row with no more commits than any sorted row may follow them. */
  lemma SortedSnoc(rows: seq<Contributor>, y: Contributor)
    requires SortedByCommits(rows) && forall k | 0 <= k < |rows| :: rows[k].commits >= y.commits
    ensures SortedByCommits(rows + [y])
  {
    var s := rows + [y];
    forall i, j | 0 <= i < j < |s|
      ensures s[i].commits >= s[j].commits
    {
      assert s[i] == rows[i];
    }
  }

  lemma {:induction false} InsertSorted(x: Contributor, rows: seq<Contributor>)
    requires SortedByCommits(rows)
    ensures SortedByCommits(Insert(x, rows))
  {
    if rows == [] {
      SortedSnoc(rows, x);
    } else {
      var init := rows[..|rows| - 1];
      var last := rows[|rows| - 1];
      assert forall k | 0 <= k < |init| :: init[k] == rows[k];
      if last.commits >= x.commits {
        SortedSnoc(rows, x);
      } else {
        InsertSorted(x, init);
        InsertBound(x, init, last.commits);
        SortedSnoc(Insert(x, init), last);
      }
    }
  }

  lemma {:induction false} InsertPermutes(x: Contributor, rows: seq<Contributor>)
    ensures multiset(Insert(x, rows)) == multiset(rows) + multiset{x}
  {
    if rows != [] && rows[|rows| - 1].commits < x.commits {
      var init := rows[..|rows| - 1];
      InsertPermutes(x, init);
      assert rows == init + [rows[|rows| - 1]];
    }
  }

  /** A lower bound on the counts of `x` and the rows bounds the counts after the insertion. */
  lemma {:induction false} InsertBound(x: Contributor, rows: seq<Contributor>, b: int)
    requires x.commits >= b && forall k | 0 <= k < |rows| :: rows[k].commits >= b
    ensures forall k | 0 <= k < |Insert(x, rows)| :: Insert(x, rows)[k].commits >= b
  {
    if rows != [] && rows[|rows| - 1].commits < x.commits {
      InsertBound(x, rows[..|rows| - 1], b);
    }
  }

  /** `sorted(result, key=commits, reverse=True)`: a stable sort, largest count first. */
  function SortByCommits(rows: seq<Contributor>): seq<Contributor> {
    if rows == [] then [] else Insert(rows[|rows| - 1], SortByCommits(rows[..|rows| - 1]))
  }

  /** The sort orders by commit count and keeps every row. */
  lemma {:induction false} SortByCommitsFacts(rows: seq<Contributor>)
    ensures SortedByCommits(SortByCommits(rows))
    ensures multiset(SortByCommits(rows)) == multiset(rows)
  {
    if rows != [] {
      var init := rows[..|rows| - 1];
      SortByCommitsFacts(init);
      InsertFacts(rows[|rows| - 1], SortByCommits(init));
      assert rows == init + [rows[|rows| - 1]];
    }
  }

  /**
   * `get_contributors`, given whether GitPython is installed and the
   * repository's history (`None` when reading it raises).
   */
  method GetContributors(gitAvailable: bool, history: Option<seq<Commit>>) returns (result: seq<Contributor>)
    ensures !gitAvailable || history.None? ==> result == []
    ensures gitAvailable && history.Some? ==>
      var commits := Take(history.value, MaxCommits);
      SortedByCommits(result)
      && multiset(result) == multiset(Rows(AggregateOf(commits)))
  {
    if !gitAvailable || history.None? {
      return [];
    }
    var commits := Take(history.value, MaxCommits);
    var d := Aggregate(commits);
    AggregatesUnique(d, commits);
    var rows := ContributorRows(d);
    result := SortByCommits(rows);
    SortByCommitsFacts(rows);
  }

  /** The result loop of `get_contributors`: one row per author, in the dictionary's order. */
  method ContributorRows(d: ODict<string, Tallied>) returns (rows: seq<Contributor>)
    requires forall a | a in d.keys :: a in d.entries
    ensures rows == Rows(d)
  {
    rows := [];
    var i := 0;
    while i < |d.keys|
      invariant 0 <= i <= |d.keys|
      invariant |rows| == i
      invariant forall k | 0 <= k < i :: rows[k] == Rows(d)[k]
    {
      var name := d.keys[i];
      var data := d.entries[name];
      rows := rows + [Contributor(name, data.commits, |data.filesTouched|)];
      i := i + 1;
    }
  }

  /** The dictionary of `get_contributors` for a list of commits. */
  function AggregateOf(commits: seq<Commit>): (d: ODict<string, Tallied>)
    ensures Aggregates(d, commits)
  {
    var keys := Distinct(Project(commits, AuthorOf));
    var entries := map a | a in keys :: Tallied(KeyCount(commits, AuthorOf, a), FilesBy(commits, a));
    ODict(keys, entries)
  }

  /** The dictionary after reading a list of commits is determined by the list. */
  lemma AggregatesUnique(d: ODict<string, Tallied>, commits: seq<Commit>)
    requires Aggregates(d, commits)
    ensures d == AggregateOf(commits)
  {
    var e := AggregateOf(commits);
    assert d.entries == e.entries;
  }

  /**
   * Every author of the read commits appears exactly once, with the number
   * of their commits and of the distinct files they touched; the counts
   * add up to the number of commits read.
   */
  lemma ContributorsFacts(commits: seq<Commit>)
    ensures NoDuplicates(AggregateOf(commits).keys)
    ensures forall a :: a in AggregateOf(commits).keys <==> exists i | 0 <= i < |commits| :: commits[i].author == a
    ensures forall a | a in AggregateOf(commits).entries ::
      AggregateOf(commits).entries[a].commits == KeyCount(commits, AuthorOf, a) >= 1
    ensures SumKeyCounts(commits, AuthorOf, AggregateOf(commits).keys) == |commits|
  {
    var d := AggregateOf(commits);
    var authors := Project(commits, AuthorOf);
    assert d.keys == Distinct(authors);
    ProjectMembers(commits, AuthorOf);
    forall a | a in d.entries
      ensures d.entries[a].commits == KeyCount(commits, AuthorOf, a) >= 1
    {
      assert a in authors;
      AuthorCounted(commits, a);
    }
    forall x | x in commits
      ensures AuthorOf(x) in d.keys
    {
      var i :| 0 <= i < |commits| && commits[i] == x;
      assert AuthorOf(commits[i]) in authors;
    }
    KeyCountsPartition(commits, AuthorOf, d.keys);
  }

  /** An author of some commit has a positive count. */
  lemma {:induction false} AuthorCounted(commits: seq<Commit>, a: string)
    requires a in Project(commits, AuthorOf)
    ensures KeyCount(commits, AuthorOf, a) >= 1
  {
    var init := commits[..|commits| - 1];
    ProjectSnoc(init, commits[|commits| - 1], AuthorOf);
    assert commits == init + [commits[|commits| - 1]];
    if commits[|commits| - 1].author != a {
      AuthorCounted(init, a);
    }
  }

  /** The projection holds exactly the keys of the elements. */
  lemma {:induction false} ProjectMembers(commits: seq<Commit>, key: Commit -> string)
    ensures forall a :: a in Project(commits, key) <==> exists i | 0 <= i < |commits| :: key(commits[i]) == a
  {
    if commits != [] {
      var init := commits[..|commits| - 1];
      ProjectMembers(init, key);
      ProjectSnoc(init, commits[|commits| - 1], key);
      assert commits == init + [commits[|commits| - 1]];
      forall a | exists i | 0 <= i < |commits| :: key(commits[i]) == a
        ensures a in Project(commits, key)
      {
        var i :| 0 <= i < |commits| && key(commits[i]) == a;
        if i < |init| {
          assert init[i] == commits[i];
        }
      }
      forall a | a in Project(commits, key)
        ensures exists i | 0 <= i < |commits| :: key(commits[i]) == a
      {
        if a in Project(init, key) {
          var i :| 0 <= i < |init| && key(init[i]) == a;
          assert commits[i] == init[i];
        } else {
          assert key(commits[|commits| - 1]) == a;
        }
      }
    }
  }
}
