/**
 * The GitOps page: the list of the user's repositories, the selected one,
 * and the pull requests fetched for it. Network results arrive as inputs
 * to the transitions; each effect body is one atomic transition.
 */
module GitOps {
  import opened Optional
  import opened Text

  datatype Repository = Repository(
    id: int,
    name: string,
    owner: string,
    url: string,
    isPrivate: bool,
    language: Option<string>,
    updatedAt: string)

  datatype PullRequestAuthor = PullRequestAuthor(login: string, avatarUrl: string)

  datatype PullRequest = PullRequest(
    id: int,
    number: int,
    title: string,
    user: PullRequestAuthor,
    state: string,
    htmlUrl: string,
    createdAt: string)

  /** How a fetch ended: a parsed JSON body, a response that was not ok, or a thrown exception. */
  datatype FetchOutcome<T> = Loaded(data: T) | NotOk | Threw

  // ---------------------------------------------------------------------
  // The pull-request URL
  // ---------------------------------------------------------------------

  const REPOS_PATH: string := "/api/github/repos"
  const PULLS_SUFFIX: string := "/pulls"

  /** The URL the pull requests of `owner`/`name` are fetched from. */
  function PullsUrl(base: string, owner: string, name: string): (url: string)
  {
    base + REPOS_PATH + "/" + owner + "/" + name + PULLS_SUFFIX
  }

  /** A route parameter: one non-empty path segment. */
  predicate IsSegment(s: string)
  {
    s != [] && '/' !in s
  }

  /** The first position of `c` in `s`, if any. */
  function IndexOf(s: string, c: char): (r: Option<nat>)
    ensures r.Some? ==> r.value < |s| && s[r.value] == c && c !in s[..r.value]
    ensures r.None? ==> c !in s
  {
    if s == [] then None
    else if s[0] == c then Some(0)
    else match IndexOf(s[1..], c)
      case None => None
      case Some(k) =>
        assert s[..k + 1] == [s[0]] + s[1..][..k];
        Some(k + 1)
  }

  /**
   * The route pattern `/api/github/repos/:owner/:repo/pulls` that the page
   * names for its pull-request URL, read the way Express reads route
   * parameters (each one a single non-empty path segment): the owner and
   * repository segments of a matching URL below `base`.
   */
  function MatchPullsRoute(base: string, url: string): (r: Option<(string, string)>)
    ensures r.Some? ==>
      IsSegment(r.value.0) && IsSegment(r.value.1) && PullsUrl(base, r.value.0, r.value.1) == url
  {
    var prefix := base + REPOS_PATH + "/";
    if |url| < |prefix| + |PULLS_SUFFIX| then None
    else if url[..|prefix|] != prefix || url[|url| - |PULLS_SUFFIX|..] != PULLS_SUFFIX then None
    else
      var middle := url[|prefix|..|url| - |PULLS_SUFFIX|];
      match IndexOf(middle, '/')
      case None => None
      case Some(k) =>
        var owner, name := middle[..k], middle[k + 1..];
        if IsSegment(owner) && IsSegment(name) then
          assert middle == owner + "/" + name;
          assert url == prefix + middle + PULLS_SUFFIX;
          Some((owner, name))
        else None
  }

  /** The URL the page builds matches its route pattern, which reads back the same owner and repository. */
  lemma PullsUrlMatchesRoute(base: string, owner: string, name: string)
    requires IsSegment(owner) && IsSegment(name)
    ensures MatchPullsRoute(base, PullsUrl(base, owner, name)) == Some((owner, name))
  {
    var prefix := base + REPOS_PATH + "/";
    var url := PullsUrl(base, owner, name);
    assert url == prefix + (owner + "/" + name) + PULLS_SUFFIX;
    var middle := url[|prefix|..|url| - |PULLS_SUFFIX|];
    assert middle == owner + "/" + name;
    var k := IndexOf(middle, '/');
    assert middle[|owner|] == '/';
    assert middle[..|owner|] == owner;
    assert k == Some(|owner|);
  }

  // ---------------------------------------------------------------------
  // Finding a repository by the dropdown's value
  // ---------------------------------------------------------------------

  /** The position of the first repository whose id, as a decimal string, is `repoId`. */
  function FindRepo(repos: seq<Repository>, repoId: string): (r: Option<nat>)
    ensures r.Some? ==>
      && r.value < |repos|
      && IntToString(repos[r.value].id) == repoId
      && forall j :: 0 <= j < r.value ==> IntToString(repos[j].id) != repoId
    ensures r.None? ==> forall j :: 0 <= j < |repos| ==> IntToString(repos[j].id) != repoId
  {
    if repos == [] then None
    else if IntToString(repos[0].id) == repoId then Some(0)
    else match FindRepo(repos[1..], repoId)
      case None => None
      case Some(k) => Some(k + 1)
  }

  /** A repository whose id string is the value is found, at its position or earlier. */
  lemma FindRepoReaches(repos: seq<Repository>, repoId: string, i: nat)
    requires i < |repos| && IntToString(repos[i].id) == repoId
    ensures FindRepo(repos, repoId).Some? && FindRepo(repos, repoId).value <= i
  {
  }

  /**
   * Choosing a listed repository in the dropdown finds the first listed
   * repository with the same id: the chosen one when ids are unique.
   */
  lemma FindListedRepo(repos: seq<Repository>, i: nat)
    requires i < |repos|
    ensures FindRepo(repos, IntToString(repos[i].id)).Some?
    ensures var k := FindRepo(repos, IntToString(repos[i].id)).value;
      k <= i && repos[k].id == repos[i].id
    ensures UniqueIds(repos) ==> FindRepo(repos, IntToString(repos[i].id)) == Some(i)
  {
    var repoId := IntToString(repos[i].id);
    FindRepoReaches(repos, repoId, i);
    var k := FindRepo(repos, repoId).value;
    assert IntToString(repos[k].id) == repoId;
    IntToStringInjective(repos[k].id, repos[i].id);
    assert repos[k].id == repos[i].id;
  }

  /** No two listed repositories share an id. */
  predicate UniqueIds(repos: seq<Repository>)
  {
    forall a, b :: 0 <= a < b < |repos| ==> repos[a].id != repos[b].id
  }

  // ---------------------------------------------------------------------
  // What the page renders
  // ---------------------------------------------------------------------

  /** The pull-request panel: a spinner, the empty message, or the table. */
  datatype PrPanel = Spinner | NoPullRequests | PullRequestTable(rows: seq<PullRequest>)

  /** Below the selector: a placeholder, or the tabs for the selected repository. */
  datatype PageBody = SelectRepositoryPlaceholder | RepositoryTabs(repo: Repository, panel: PrPanel)

  // ---------------------------------------------------------------------
  // Page state
  // ---------------------------------------------------------------------

  /** The GitOps page's five state cells and the API's base URL. */
  class GitOpsPage {
    const apiBaseUrl: string
    var repos: seq<Repository>
    var selectedRepo: Option<Repository>
    var prs: seq<PullRequest>
    var isPrsLoading: bool
    var isReposLoading: bool

    /**
     * Nothing is listed or selected before the repositories arrive, and a
     * selected repository is always one of those listed.
     */
    ghost predicate Valid()
      reads this
    {
      && (isReposLoading ==> repos == [] && selectedRepo == None)
      && (selectedRepo.Some? ==> selectedRepo.value in repos)
    }

    constructor (apiBaseUrl: string)
      ensures Valid()
      ensures this.apiBaseUrl == apiBaseUrl
      ensures repos == [] && selectedRepo == None && prs == []
      ensures !isPrsLoading && isReposLoading
    {
      this.apiBaseUrl := apiBaseUrl;
      repos := [];
      selectedRepo := None;
      prs := [];
      isPrsLoading := false;
      isReposLoading := true;
    }

    /**
     * The mount effect's repository fetch has ended. A loaded list replaces
     * `repos` and, when not empty, selects its first entry; a failure keeps
     * both. The loading flag is cleared in every case.
     */
    method FinishRepoFetch(outcome: FetchOutcome<seq<Repository>>)
      requires Valid() && isReposLoading
      modifies this`repos, this`selectedRepo, this`isReposLoading
      ensures Valid()
      ensures !isReposLoading
      ensures outcome.Loaded? ==> repos == outcome.data
      ensures outcome.Loaded? && outcome.data != [] ==> selectedRepo == Some(outcome.data[0])
      ensures outcome.Loaded? && outcome.data == [] ==> selectedRepo == old(selectedRepo) == None
      ensures !outcome.Loaded? ==> repos == old(repos) && selectedRepo == old(selectedRepo)
    {
      if outcome.Loaded? {
        repos := outcome.data;
        if |outcome.data| > 0 {
          selectedRepo := Some(outcome.data[0]);
        }
      }
      isReposLoading := false;
    }

    /** The dropdown's value changed: select the first repository with that id, if any. */
    method HandleRepoChange(repoId: string)
      requires Valid()
      modifies this`selectedRepo
      ensures Valid()
      ensures FindRepo(repos, repoId).Some? ==> selectedRepo == Some(repos[FindRepo(repos, repoId).value])
      ensures FindRepo(repos, repoId).None? ==> selectedRepo == old(selectedRepo)
    {
      var found := FindRepo(repos, repoId);
      if found.Some? {
        selectedRepo := Some(repos[found.value]);
      }
    }

    /**
     * The selection effect starts: with no repository selected nothing
     * happens; otherwise the spinner is raised and the URL to fetch is given.
     */
    method StartPrFetch() returns (url: Option<string>)
      modifies this`isPrsLoading
      ensures selectedRepo.None? ==> url == None && isPrsLoading == old(isPrsLoading)
      ensures selectedRepo.Some? ==>
        && url == Some(PullsUrl(apiBaseUrl, selectedRepo.value.owner, selectedRepo.value.name))
        && isPrsLoading
    {
      if selectedRepo.None? {
        return None;
      }
      isPrsLoading := true;
      url := Some(PullsUrl(apiBaseUrl, selectedRepo.value.owner, selectedRepo.value.name));
    }

    /** The pull-request fetch has ended: loaded data replaces `prs`, a failure clears it. */
    method FinishPrFetch(outcome: FetchOutcome<seq<PullRequest>>)
      modifies this`prs, this`isPrsLoading
      ensures !isPrsLoading
      ensures prs == if outcome.Loaded? then outcome.data else []
    {
      if outcome.Loaded? {
        prs := outcome.data;
      } else {
        prs := [];
      }
      isPrsLoading := false;
    }

    /** The pull-request panel for the current state. */
    function Panel(): (r: PrPanel)
      reads this
      ensures r == Spinner <==> isPrsLoading
      ensures r == NoPullRequests <==> !isPrsLoading && prs == []
      ensures r.PullRequestTable? ==> r.rows == prs && prs != []
    {
      if isPrsLoading then Spinner
      else if |prs| == 0 then NoPullRequests
      else PullRequestTable(prs)
    }

    /** The page below the selector: the tabs exactly when a repository is selected. */
    function Body(): (r: PageBody)
      reads this
      ensures r.RepositoryTabs? <==> selectedRepo.Some?
      ensures r.RepositoryTabs? ==> r.repo == selectedRepo.value && r.panel == Panel()
    {
      match selectedRepo
      case None => SelectRepositoryPlaceholder
      case Some(repo) => RepositoryTabs(repo, Panel())
    }
  }

  /**
   * Mounting the page: the repository fetch ends with `outcome`, and the
   * selection effect then runs. A pull-request fetch starts, for the first
   * repository, exactly when a non-empty list was loaded.
   */
  method Mount(apiBaseUrl: string, outcome: FetchOutcome<seq<Repository>>)
    returns (prsUrl: Option<string>, body: PageBody)
    ensures prsUrl ==
      if outcome.Loaded? && outcome.data != []
      then Some(PullsUrl(apiBaseUrl, outcome.data[0].owner, outcome.data[0].name))
      else None
    ensures body.RepositoryTabs? <==> prsUrl.Some?
    ensures body.RepositoryTabs? ==> body.panel == Spinner
  {
    var page := new GitOpsPage(apiBaseUrl);
    page.FinishRepoFetch(outcome);
    prsUrl := page.StartPrFetch();
    body := page.Body();
  }
}
