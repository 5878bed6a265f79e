/**
 * The four tool handlers, each as a function from its validated arguments,
 * the PAT from the environment and the upstream service to the requests it
 * issues and the value or error it ends with. The credential is checked
 * before anything is sent; every request carries the Basic header built from
 * it; a response that is not OK ends the invocation with the tool's prefixed
 * message and no partial result.
 */
module Tools {
  import opened Wrappers
  import opened AzureDevOps
  import opened Projection
  import opened WorkItemPatch
  import opened Http
  import opened Auth
  import opened FanOut
  import UriComponent

  /** What one invocation did: the requests it sent, in order, and how it ended. */
  datatype Invocation<T> = Invocation(requests: seq<Request>, outcome: Result<T, Error>)

  // ----- get_all_repos -----

  const RepositoryListUrl := RepositoriesUrl + "?api-version=" + ApiVersion

  function GetAllRepos(pat: Option<string>, upstream: Request -> Response<RepositoryPage>): (inv: Invocation<RepositoryList>)
    ensures !Truthy(pat) ==> inv == Invocation([], Failure(MissingCredential(PatRequiredSetVariable)))
    ensures Truthy(pat) ==> inv.requests == [Request(Get, RepositoryListUrl, JsonContentType, AuthorizationHeader(pat.value), None)]
    ensures inv.outcome.Success? <==> Truthy(pat) && upstream(inv.requests[0]).Ok?
    ensures inv.outcome.Success? ==> inv.outcome.value == ProjectRepositories(upstream(inv.requests[0]).page)
    ensures Truthy(pat) && !upstream(inv.requests[0]).Ok? ==>
      inv.outcome == Failure(ToolFailure("Failed to fetch repositories: " + ReadFailureMessage(upstream(inv.requests[0]))))
  {
    match ResolvePat(pat, PatRequiredSetVariable)
    case Failure(e) => Invocation([], Failure(e))
    case Success(token) =>
      var request := Request(Get, RepositoryListUrl, JsonContentType, AuthorizationHeader(token), None);
      var response := upstream(request);
      if response.Ok? then Invocation([request], Success(ProjectRepositories(response.page)))
      else Invocation([request], Failure(ToolFailure("Failed to fetch repositories: " + ReadFailureMessage(response))))
  }

  // ----- get_all_authored_pull_requests -----

  const PullRequestsFailurePrefix := "Failed to fetch pull requests: "

  /**
   * The handler as written. Its `!repos` guard cannot fire for an array, even
   * an empty one, so it does not appear here. After a successful fan-out the
   * merge into the never-assigned `result` throws a TypeError outside the
   * handler's `try`, so the message carries no tool prefix (see `MergeAndReport`).
   */
  function GetAllAuthoredPullRequests(repos: seq<string>, pat: Option<string>,
                                      upstream: PagedUpstream): (inv: Invocation<MergedPullRequests>)
    ensures !Truthy(pat) ==> inv == Invocation([], Failure(MissingCredential(PatRequiredProvideOrSet)))
    ensures Truthy(pat) ==>
      var fan := FetchAll(repos, AuthorizationHeader(pat.value), upstream);
      && inv.requests == fan.requests
      && (fan.outcome.Failure? ==> inv.outcome == Failure(ToolFailure(PullRequestsFailurePrefix + fan.outcome.error)))
      && (fan.outcome.Success? ==>
            inv.outcome == Failure(UncaughtTypeError(if |repos| == 0 then CountOfUndefinedMessage else AssignToUndefinedMessage)))
  {
    match ResolvePat(pat, PatRequiredProvideOrSet)
    case Failure(e) => Invocation([], Failure(e))
    case Success(token) =>
      var fan := FetchAll(repos, AuthorizationHeader(token), upstream);
      match fan.outcome
      case Failure(message) => Invocation(fan.requests, Failure(ToolFailure(PullRequestsFailurePrefix + message)))
      case Success(datas) =>
        assert |datas| == |repos|;
        Invocation(fan.requests, MergeAndReport(datas))
  }

  /** The handler as written never returns a result, whatever the repositories and the responses. */
  lemma AuthoredPullRequestsNeverSucceed(repos: seq<string>, pat: Option<string>,
                                         upstream: PagedUpstream)
    ensures GetAllAuthoredPullRequests(repos, pat, upstream).outcome.Failure?
  {
  }

  /**
   * The same handler with the merge replaced by a flattening in input order:
   * the count is the number of pull requests over all repositories.
   */
  function GetAllAuthoredPullRequestsFlattened(repos: seq<string>, pat: Option<string>,
                                               upstream: PagedUpstream): (inv: Invocation<PullRequestList>)
    ensures !Truthy(pat) ==> inv == Invocation([], Failure(MissingCredential(PatRequiredProvideOrSet)))
    ensures Truthy(pat) ==> inv.requests == FetchAll(repos, AuthorizationHeader(pat.value), upstream).requests
    ensures inv.outcome.Success? <==> (Truthy(pat) && FetchAll(repos, AuthorizationHeader(pat.value), upstream).outcome.Success?)
    ensures inv.outcome.Success? ==>
      var pages := FetchAll(repos, AuthorizationHeader(pat.value), upstream).outcome.value;
      inv.outcome.value == PullRequestList(TotalPullRequests(pages), Flatten(pages))
    ensures Truthy(pat) && FetchAll(repos, AuthorizationHeader(pat.value), upstream).outcome.Failure? ==>
      inv.outcome == Failure(ToolFailure(PullRequestsFailurePrefix + FetchAll(repos, AuthorizationHeader(pat.value), upstream).outcome.error))
  {
    match ResolvePat(pat, PatRequiredProvideOrSet)
    case Failure(e) => Invocation([], Failure(e))
    case Success(token) =>
      var fan := FetchAll(repos, AuthorizationHeader(token), upstream);
      match fan.outcome
      case Failure(message) => Invocation(fan.requests, Failure(ToolFailure(PullRequestsFailurePrefix + message)))
      case Success(datas) =>
        var pullRequests := Flatten(datas);
        FlattenLength(datas);
        Invocation(fan.requests, Success(PullRequestList(|pullRequests|, pullRequests)))
  }

  // ----- get_comments_on_pull_request -----

  const ArgumentsRequired := "PR Id and repo name are required."

  function ThreadsUrl(repo: string, prId: string): string {
    RepositoriesUrl + "/" + repo + "/pullrequests/" + prId + "/threads?api-version=" + ApiVersion
  }

  function GetCommentsOnPullRequest(repo: string, prId: string, pat: Option<string>,
                                    upstream: Request -> Response<ThreadPage>): (inv: Invocation<ThreadList>)
    ensures repo == "" || prId == "" ==> inv == Invocation([], Failure(MissingArgument(ArgumentsRequired)))
    ensures repo != "" && prId != "" && !Truthy(pat) ==>
      inv == Invocation([], Failure(MissingCredential(PatRequiredProvideOrSet)))
    ensures |inv.requests| == 1 <==> repo != "" && prId != "" && Truthy(pat)
    ensures |inv.requests| == 1 ==>
      inv.requests[0] == Request(Get, ThreadsUrl(repo, prId), JsonContentType, AuthorizationHeader(pat.value), None)
    ensures inv.outcome.Success? <==> |inv.requests| == 1 && upstream(inv.requests[0]).Ok?
    ensures inv.outcome.Success? ==> inv.outcome.value == ProjectThreads(upstream(inv.requests[0]).page)
    ensures |inv.requests| == 1 && !upstream(inv.requests[0]).Ok? ==>
      inv.outcome == Failure(ToolFailure("Failed to fetch PR comments: " + ReadFailureMessage(upstream(inv.requests[0]))))
  {
    if prId == "" || repo == "" then Invocation([], Failure(MissingArgument(ArgumentsRequired)))
    else match ResolvePat(pat, PatRequiredProvideOrSet)
      case Failure(e) => Invocation([], Failure(e))
      case Success(token) =>
        var request := Request(Get, ThreadsUrl(repo, prId), JsonContentType, AuthorizationHeader(token), None);
        var response := upstream(request);
        if response.Ok? then Invocation([request], Success(ProjectThreads(response.page)))
        else Invocation([request], Failure(ToolFailure("Failed to fetch PR comments: " + ReadFailureMessage(response))))
  }

  // ----- create_work_item -----

  /** The work item creation address: project and type are percent-encoded, the type follows a `$`. */
  function WorkItemUrl(project: string, kind: WorkItemType): string {
    OrganizationUrl + UriComponent.Encode(project) + "/_apis/wit/workitems/$" + UriComponent.Encode(kind.Name())
    + "?api-version=" + ApiVersion
  }

  /**
   * `project` and `priority` are absent when the caller left them out; the
   * schema defaults ("Azure AppConfig", 2) are applied here.
   */
  function CreateWorkItem(title: string, description: string, kind: WorkItemType, assignedTo: Option<string>,
                          project: Option<string>, priority: Option<int>, tags: Option<seq<string>>,
                          pat: Option<string>, upstream: Request -> Response<WorkItem>): (inv: Invocation<WorkItemSummary>)
    requires priority.Some? ==> ValidPriority(priority.value)
    ensures !Truthy(pat) ==> inv == Invocation([], Failure(MissingCredential(PatRequiredSetVariable)))
    ensures Truthy(pat) ==> inv.requests == [Request(Post, WorkItemUrl(project.GetOr(DefaultProject), kind),
      JsonPatchContentType, AuthorizationHeader(pat.value),
      Some(BuildPatchDocument(title, description, priority.GetOr(DefaultPriority), assignedTo, tags)))]
    ensures inv.outcome.Success? <==> Truthy(pat) && upstream(inv.requests[0]).Ok?
    ensures inv.outcome.Success? ==> inv.outcome.value == ProjectWorkItem(upstream(inv.requests[0]).page, kind, title)
    ensures Truthy(pat) && !upstream(inv.requests[0]).Ok? ==>
      inv.outcome == Failure(ToolFailure("Failed to create work item: " + WriteFailureMessage(upstream(inv.requests[0]))))
  {
    match ResolvePat(pat, PatRequiredSetVariable)
    case Failure(e) => Invocation([], Failure(e))
    case Success(token) =>
      var document := BuildPatchDocument(title, description, priority.GetOr(DefaultPriority), assignedTo, tags);
      var url := WorkItemUrl(project.GetOr(DefaultProject), kind);
      var request := Request(Post, url, JsonPatchContentType, AuthorizationHeader(token), Some(document));
      var response := upstream(request);
      if response.Ok? then Invocation([request], Success(ProjectWorkItem(response.page, kind, title)))
      else Invocation([request], Failure(ToolFailure("Failed to create work item: " + WriteFailureMessage(response))))
  }
}
