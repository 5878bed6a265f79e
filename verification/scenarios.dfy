/** Worked cases of the handlers' documented behaviour, on concrete inputs. */
module Scenarios {
  import opened Wrappers
  import opened AzureDevOps
  import opened Projection
  import opened WorkItemPatch
  import opened JsonPatch
  import opened Http
  import opened Auth
  import opened FanOut
  import opened Tools
  import Decimal

  function SamplePullRequest(id: nat, repo: string): PullRequest {
    PullRequest(Some(id), Some("change"), Some("active"), None, None, Some(NamedRef(Some(repo))), None, None)
  }

  /** The first call (for repository A) finds two authored pull requests, every later one (for B) none. */
  function TwoReposUpstream(): PagedUpstream {
    (i: nat, r: Request) =>
      if i == 0
      then Ok(PullRequestPage(Some(2), [SamplePullRequest(7, "A"), SamplePullRequest(9, "A")]))
      else Ok(PullRequestPage(Some(0), []))
  }

  /**
   * With the flattening merge, A's two pull requests come back in A's order,
   * and B's empty page neither fails the call nor adds anything.
   */
  lemma EmptyRepositoryDoesNotBreakAggregation(pat: string)
    requires pat != ""
    ensures var inv := GetAllAuthoredPullRequestsFlattened(["A", "B"], Some(pat), TwoReposUpstream());
      && |inv.requests| == 2
      && inv.outcome.Success?
      && inv.outcome.value.count == 2
      && |inv.outcome.value.pullRequests| == 2
      && inv.outcome.value.pullRequests[0].id == Some(7)
      && inv.outcome.value.pullRequests[1].id == Some(9)
  {
    var header := AuthorizationHeader(pat);
    var upstream := TwoReposUpstream();
    var fan := FetchAll(["A", "B"], header, upstream);
    var pages := fan.outcome.value;
    assert pages == [upstream(0, PullRequestsRequest("A", header)).page, upstream(1, PullRequestsRequest("B", header)).page];
    FlattenAppend([pages[0]], [pages[1]]);
    assert pages == [pages[0]] + [pages[1]];
    FlattenLength(pages);
  }

  /** One repository whose response is OK: the handler as written still ends in a TypeError. */
  lemma AsWrittenFailsEvenForOneRepository(pat: string)
    requires pat != ""
    ensures var inv := GetAllAuthoredPullRequests(["A"], Some(pat), TwoReposUpstream());
      inv.outcome == Failure(UncaughtTypeError(AssignToUndefinedMessage))
  {
  }

  /** The first call succeeds with an empty page; every later call gets a 503. */
  function FlakyUpstream(): PagedUpstream {
    (i: nat, r: Request) => if i == 0 then Ok(PullRequestPage(Some(0), [])) else Err(503, "Service Unavailable", "")
  }

  /**
   * A repository named twice is fetched twice. The second, identical request
   * can fail after the first succeeded, and the tool then reports that failure.
   */
  lemma RepeatedRepositoryCanFailOnSecondCall(pat: string)
    requires pat != ""
    ensures var inv := GetAllAuthoredPullRequests(["A", "A"], Some(pat), FlakyUpstream());
      && |inv.requests| == 2
      && inv.requests[0] == inv.requests[1]
      && inv.outcome == Failure(ToolFailure(PullRequestsFailurePrefix + StatusMessage(503, "Service Unavailable")))
  {
  }

  /** An empty tag list adds no tag operation; ["x", "y"] adds one with the value "x; y". */
  lemma TagsExamples()
    ensures |BuildPatchDocument("t", "d", 2, None, Some([]))| == 3
    ensures var doc := BuildPatchDocument("t", "d", 2, None, Some(["x", "y"]));
      |doc| == 4 && doc[3] == Add(TagsPath, "x; y")
  {
  }

  /** Priority 1 is sent as the string "1". */
  lemma PriorityExample()
    ensures BuildPatchDocument("t", "d", 1, None, None)[2] == Add(PriorityPath, "1")
  {
  }

  /** A thread without comments is kept, with an empty comment list. */
  lemma ThreadWithoutCommentsExample()
    ensures var threads := ProjectThreads(ThreadPage(Some(1), [Thread(Some(5), Some("active"), None, [])])).threads;
      |threads| == 1 && threads[0].comments == []
  {
  }
}
