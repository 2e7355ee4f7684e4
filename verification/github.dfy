/** The issue fetcher: page through one repository's issue list and map every
    raw issue to a `GithubIssue` row. The go-github client is abstracted as a
    function from a page request to that page's response. */
module GitHub {
  import opened Wrappers
  import opened Timestamps
  import opened Metrics

  /** A `*github.Issue`: every field is a pointer that may be nil. */
  datatype RawIssue = RawIssue(
    title: Option<string>,
    number: Option<int>,
    createdAt: Option<Time>,
    closedAt: Option<Time>)

  /** The row shape stored into `github_issues`. */
  datatype GithubIssue = GithubIssue(
    title: string,
    number: int,
    createdAt: Time,
    closedAt: Time,
    repo: string)

  /** One response of `Issues.ListByRepo`: the page's issues and the page
      to ask for next, 0 when this was the last one. */
  datatype Page = Page(issues: seq<RawIssue>, nextPage: nat)

  /** `client.Issues.ListByRepo(ctx, owner, repo, opt)` with `opt.Page` as the
      third argument; a `Failure` carries the returned error. */
  type ListByRepo = (string, string, nat) -> Result<Page, string>

  datatype FetchError = ListFailed(page: nat, reason: string)

  /** The first request leaves `opt.Page` at its zero value. */
  const FirstPage: nat := 0

  /** Starting at `page`, the requests end (with an error or a last page)
      within `fuel` requests. */
  predicate EndsWithin(list: ListByRepo, owner: string, repo: string, page: nat, fuel: nat)
    decreases fuel
  {
    fuel > 0 &&
    match list(owner, repo, page)
    case Failure(_) => true
    case Success(p) => p.nextPage == 0 || EndsWithin(list, owner, repo, p.nextPage, fuel - 1)
  }

  /** The paging loop: request `page`, append its issues, stop on
      `NextPage == 0`, otherwise continue with `NextPage`. */
  function Paginate(list: ListByRepo, owner: string, repo: string, page: nat, ghost fuel: nat)
    : (r: Result<seq<RawIssue>, FetchError>)
    requires EndsWithin(list, owner, repo, page, fuel)
    ensures r.Success? ==>
      list(owner, repo, page).Success? && list(owner, repo, page).value.issues <= r.value
    ensures r.Failure? ==>
      && r.error.page in RequestedPages(list, owner, repo, page, fuel)
      && list(owner, repo, r.error.page) == Failure(r.error.reason)
    decreases fuel
  {
    match list(owner, repo, page)
    case Failure(reason) => Failure(ListFailed(page, reason))
    case Success(p) =>
      if p.nextPage == 0 then Success(p.issues)
      else
        var rest :- Paginate(list, owner, repo, p.nextPage, fuel - 1);
        Success(p.issues + rest)
  }

  /** The page numbers requested, in order, by `Paginate` from `page` on. */
  function RequestedPages(list: ListByRepo, owner: string, repo: string, page: nat, ghost fuel: nat)
    : (pages: seq<nat>)
    requires EndsWithin(list, owner, repo, page, fuel)
    ensures 0 < |pages| <= fuel && pages[0] == page
    decreases fuel
  {
    match list(owner, repo, page)
    case Failure(_) => [page]
    case Success(p) =>
      if p.nextPage == 0 then [page]
      else [page] + RequestedPages(list, owner, repo, p.nextPage, fuel - 1)
  }

  /** The request for page `b` directly follows a successful request for page
      `a` that named `b` as its nonzero `NextPage`. */
  ghost predicate Follows(list: ListByRepo, owner: string, repo: string, a: nat, b: nat) {
    && list(owner, repo, a).Success?
    && b != 0
    && list(owner, repo, a).value.nextPage == b
  }

  /** An independent description of a successful paging run: every request in
      `pages` succeeded, each later request asks for the previous response's
      nonzero `NextPage`, and the last response says there is no next page. */
  ghost predicate IsPageChain(list: ListByRepo, owner: string, repo: string, pages: seq<nat>) {
    && |pages| > 0
    && (forall i :: 0 <= i < |pages| ==> list(owner, repo, pages[i]).Success?)
    && (forall i :: 0 <= i < |pages| - 1 ==> Follows(list, owner, repo, pages[i], pages[i + 1]))
    && list(owner, repo, pages[|pages| - 1]).value.nextPage == 0
  }

  /** The issues of the pages in `pages`, concatenated in request order. */
  ghost function ConcatIssues(list: ListByRepo, owner: string, repo: string, pages: seq<nat>): seq<RawIssue>
    requires forall i :: 0 <= i < |pages| ==> list(owner, repo, pages[i]).Success?
  {
    if |pages| == 0 then []
    else list(owner, repo, pages[0]).value.issues + ConcatIssues(list, owner, repo, pages[1..])
  }

  /** Following a page chain from its first page yields exactly the chain's
      issues, in request order. */
  lemma {:induction false} PaginateFollowsChain(list: ListByRepo, owner: string, repo: string, pages: seq<nat>)
    requires IsPageChain(list, owner, repo, pages)
    ensures EndsWithin(list, owner, repo, pages[0], |pages|)
    ensures Paginate(list, owner, repo, pages[0], |pages|) == Success(ConcatIssues(list, owner, repo, pages))
    decreases |pages|
  {
    var first := list(owner, repo, pages[0]).value;
    if |pages| == 1 {
      assert first.nextPage == 0;
      assert pages[1..] == [];
      assert ConcatIssues(list, owner, repo, pages) == first.issues + [];
      assert first.issues + [] == first.issues;
      assert Paginate(list, owner, repo, pages[0], |pages|) == Success(first.issues);
    } else {
      var tail := pages[1..];
      assert Follows(list, owner, repo, pages[0], pages[1]);
      assert IsPageChain(list, owner, repo, tail) by {
        forall i | 0 <= i < |tail| - 1
          ensures Follows(list, owner, repo, tail[i], tail[i + 1])
        {
          assert Follows(list, owner, repo, pages[i + 1], pages[i + 2]);
        }
      }
      PaginateFollowsChain(list, owner, repo, tail);
      assert first.nextPage == tail[0];
      assert Paginate(list, owner, repo, pages[0], |pages|)
          == Prepend(first.issues, Paginate(list, owner, repo, tail[0], |tail|));
    }
  }

  /** Conversely, a successful `Paginate` made exactly the requests of a page
      chain and returned that chain's issues. */
  lemma {:induction false} PaginateIsChain(list: ListByRepo, owner: string, repo: string, page: nat, fuel: nat)
    requires EndsWithin(list, owner, repo, page, fuel)
    requires Paginate(list, owner, repo, page, fuel).Success?
    ensures IsPageChain(list, owner, repo, RequestedPages(list, owner, repo, page, fuel))
    ensures Paginate(list, owner, repo, page, fuel).value
         == ConcatIssues(list, owner, repo, RequestedPages(list, owner, repo, page, fuel))
    decreases fuel
  {
    var p := list(owner, repo, page).value;
    var pages := RequestedPages(list, owner, repo, page, fuel);
    if p.nextPage == 0 {
      assert pages == [page];
      assert ConcatIssues(list, owner, repo, pages) == p.issues + ConcatIssues(list, owner, repo, []);
      assert p.issues + [] == p.issues;
    } else {
      var rest := Paginate(list, owner, repo, p.nextPage, fuel - 1);
      assert rest.Success?;
      PaginateIsChain(list, owner, repo, p.nextPage, fuel - 1);
      var tail := RequestedPages(list, owner, repo, p.nextPage, fuel - 1);
      assert pages == [page] + tail;
      assert pages[1..] == tail;
      forall i | 0 <= i < |pages|
        ensures list(owner, repo, pages[i]).Success?
      {
        if i > 0 { assert pages[i] == tail[i - 1]; }
      }
      forall i | 0 <= i < |pages| - 1
        ensures Follows(list, owner, repo, pages[i], pages[i + 1])
      {
        if i > 0 {
          assert pages[i] == tail[i - 1] && pages[i + 1] == tail[i];
        }
      }
      assert pages[|pages| - 1] == tail[|tail| - 1];
      assert Paginate(list, owner, repo, page, fuel).value == p.issues + rest.value;
    }
  }

  /** A failed `Paginate` reports the last page it requested, whose request
      failed, and every earlier request succeeded. */
  lemma {:induction false} PaginateFailsAtLastRequest(list: ListByRepo, owner: string, repo: string, page: nat, fuel: nat)
    requires EndsWithin(list, owner, repo, page, fuel)
    requires Paginate(list, owner, repo, page, fuel).Failure?
    ensures var pages := RequestedPages(list, owner, repo, page, fuel);
      && var last := pages[|pages| - 1];
      && list(owner, repo, last).Failure?
      && Paginate(list, owner, repo, page, fuel).error == ListFailed(last, list(owner, repo, last).error)
      && forall i :: 0 <= i < |pages| - 1 ==> list(owner, repo, pages[i]).Success?
    decreases fuel
  {
    var resp := list(owner, repo, page);
    if resp.Success? {
      PaginateFailsAtLastRequest(list, owner, repo, resp.value.nextPage, fuel - 1);
      var tail := RequestedPages(list, owner, repo, resp.value.nextPage, fuel - 1);
      assert RequestedPages(list, owner, repo, page, fuel) == [page] + tail;
    }
  }

  /** One raw issue as a row: nil fields read through go-github's `GetX()`
      accessors, which give "", 0 and the zero time; `repo` is stamped on. */
  function ToGithubIssue(raw: RawIssue, repo: string): GithubIssue {
    GithubIssue(
      raw.title.GetOr(""),
      raw.number.GetOr(0),
      raw.createdAt.GetOr(Zero),
      raw.closedAt.GetOr(Zero),
      repo)
  }

  /** The extraction loop over all accumulated issues. */
  function MapIssues(raws: seq<RawIssue>, repo: string): (issues: seq<GithubIssue>)
    ensures |issues| == |raws|
    ensures forall i :: 0 <= i < |raws| ==>
      && issues[i].title == raws[i].title.GetOr("")
      && issues[i].number == raws[i].number.GetOr(0)
      && issues[i].createdAt == raws[i].createdAt.GetOr(Zero)
      && issues[i].closedAt == raws[i].closedAt.GetOr(Zero)
      && issues[i].repo == repo
  {
    if |raws| == 0 then []
    else [ToGithubIssue(raws[0], repo)] + MapIssues(raws[1..], repo)
  }

  /** Mapping distributes over concatenation, so mapping the accumulated
      pages equals mapping each page and concatenating. */
  lemma MapIssuesAppend(a: seq<RawIssue>, b: seq<RawIssue>, repo: string)
    ensures MapIssues(a + b, repo) == MapIssues(a, repo) + MapIssues(b, repo)
  {
  }

  /** Mapping one more raw issue appends exactly its row. */
  lemma MapIssuesSnoc(raws: seq<RawIssue>, raw: RawIssue, repo: string)
    ensures MapIssues(raws + [raw], repo) == MapIssues(raws, repo) + [ToGithubIssue(raw, repo)]
  {
    MapIssuesAppend(raws, [raw], repo);
    assert MapIssues([raw], repo) == [ToGithubIssue(raw, repo)];
  }

  /** `Paginate`'s result extended in front by issues already accumulated. */
  function Prepend(acc: seq<RawIssue>, r: Result<seq<RawIssue>, FetchError>): Result<seq<RawIssue>, FetchError> {
    match r
    case Success(rest) => Success(acc + rest)
    case Failure(e) => Failure(e)
  }

  lemma PrependNothing(r: Result<seq<RawIssue>, FetchError>)
    ensures Prepend([], r) == r
  {
    if r.Success? {
      assert [] + r.value == r.value;
    }
  }

  lemma PrependAssoc(a: seq<RawIssue>, b: seq<RawIssue>, r: Result<seq<RawIssue>, FetchError>)
    ensures Prepend(a, Prepend(b, r)) == Prepend(a + b, r)
  {
    if r.Success? {
      assert a + (b + r.value) == (a + b) + r.value;
    }
  }

  /** The paging loop of `getGitHubIssues`: request pages from the first one
      on, accumulating their issues, until a response has no next page. */
  method FetchAllPages(list: ListByRepo, repoOwner: string, repo: string, ghost fuel: nat)
    returns (r: Result<seq<RawIssue>, FetchError>)
    requires EndsWithin(list, repoOwner, repo, FirstPage, fuel)
    ensures r == Paginate(list, repoOwner, repo, FirstPage, fuel)
  {
    var page: nat := FirstPage;
    var allIssues: seq<RawIssue> := [];
    ghost var left := fuel;
    PrependNothing(Paginate(list, repoOwner, repo, page, left));
    while true
      invariant EndsWithin(list, repoOwner, repo, page, left)
      invariant Paginate(list, repoOwner, repo, FirstPage, fuel)
             == Prepend(allIssues, Paginate(list, repoOwner, repo, page, left))
      decreases left
    {
      var resp := list(repoOwner, repo, page);
      if resp.Failure? {
        return Failure(ListFailed(page, resp.error));
      }
      if resp.value.nextPage == 0 {
        allIssues := allIssues + resp.value.issues;
        break;
      }
      PrependAssoc(allIssues, resp.value.issues, Paginate(list, repoOwner, repo, resp.value.nextPage, left - 1));
      allIssues := allIssues + resp.value.issues;
      page := resp.value.nextPage;
      left := left - 1;
    }
    r := Success(allIssues);
  }

  /** The extraction loop of `getGitHubIssues`: one row per raw issue, in
      order, each stamped with `repo`. */
  method ExtractIssueDetails(allIssues: seq<RawIssue>, repo: string) returns (issues: seq<GithubIssue>)
    ensures issues == MapIssues(allIssues, repo)
  {
    issues := [];
    var i := 0;
    while i < |allIssues|
      invariant 0 <= i <= |allIssues|
      invariant issues == MapIssues(allIssues[..i], repo)
    {
      assert allIssues[..i + 1] == allIssues[..i] + [allIssues[i]];
      MapIssuesSnoc(allIssues[..i], allIssues[i], repo);
      issues := issues + [ToGithubIssue(allIssues[i], repo)];
      i := i + 1;
    }
    assert allIssues[..i] == allIssues;
  }

  /** `getGitHubIssues(repoOwner, repo)`: page through the issue list, map
      every issue to a row stamped with `repo`, and count one GitHub API call
      however many pages were fetched. A request error aborts the call before
      the counter is touched. */
  method GetGitHubIssues(list: ListByRepo, repoOwner: string, repo: string, ghost fuel: nat, counters: Counters)
    returns (r: Result<(seq<GithubIssue>, Counters), FetchError>)
    requires EndsWithin(list, repoOwner, repo, FirstPage, fuel)
    ensures r.Success? <==> Paginate(list, repoOwner, repo, FirstPage, fuel).Success?
    ensures r.Success? ==> r.value.0 == MapIssues(Paginate(list, repoOwner, repo, FirstPage, fuel).value, repo)
    ensures r.Success? ==> r.value.1.githubApiCalls == counters.githubApiCalls + 1
    ensures r.Success? ==> r.value.1.stackoverflowApiCalls == counters.stackoverflowApiCalls
    ensures r.Failure? ==> r.error == Paginate(list, repoOwner, repo, FirstPage, fuel).error
  {
    var all := FetchAllPages(list, repoOwner, repo, fuel);
    if all.Failure? {
      return Failure(all.error);
    }
    var issues := ExtractIssueDetails(all.value, repo);
    r := Success((issues, counters.IncGitHub()));
  }

  /** Owner "golang", repository "go": page 0 holds one issue and names page 2
      as next; page 2 holds one issue and is the last page. */
  const ScenarioFirst: RawIssue := RawIssue(Some("first"), Some(1), None, None)
  const ScenarioSecond: RawIssue := RawIssue(Some("second"), Some(2), None, Some(Time(0)))
  const ScenarioList: ListByRepo := (owner: string, repo: string, page: nat) =>
    if owner != "golang" || repo != "go" then Failure("404 Not Found")
    else if page == 0 then Success(Page([ScenarioFirst], 2))
    else if page == 2 then Success(Page([ScenarioSecond], 0))
    else Failure("unexpected page")

  /** Both pages' issues are fetched, in page order, and every row carries
      repository "go", never the owner "golang". */
  lemma ScenarioGolangGo()
    ensures EndsWithin(ScenarioList, "golang", "go", FirstPage, 2)
    ensures Paginate(ScenarioList, "golang", "go", FirstPage, 2) == Success([ScenarioFirst, ScenarioSecond])
    ensures MapIssues([ScenarioFirst, ScenarioSecond], "go")
         == [GithubIssue("first", 1, Zero, Zero, "go"), GithubIssue("second", 2, Zero, Time(0), "go")]
  {
    assert ScenarioList("golang", "go", 0) == Success(Page([ScenarioFirst], 2));
    assert ScenarioList("golang", "go", 2) == Success(Page([ScenarioSecond], 0));
    assert [ScenarioFirst] + [ScenarioSecond] == [ScenarioFirst, ScenarioSecond];
  }
}
