/**
 * The pull request fan-out of get_all_authored_pull_requests: one request per
 * repository, issued in the order of the input list, each awaited before the
 * next; the first response that is not OK stops the loop and no page is
 * returned. Then the merge of the fetched pages, both as the handler writes it
 * (into an accumulator that is never initialised) and as a flattening in
 * input order.
 */
module FanOut {
  import opened Wrappers
  import opened Http
  import opened AzureDevOps
  import opened Projection

  /** The creator id every pull request query filters on. */
  const CreatorId := "85430e72-a10b-4adf-b0df-a060884cdee9"

  function PullRequestsUrl(repo: string): string {
    RepositoriesUrl + "/" + repo + "/pullrequests?searchCriteria.creatorId=" + CreatorId
    + "&searchCriteria.status=active&api-version=" + ApiVersion
  }

  function PullRequestsRequest(repo: string, authorization: string): Request {
    Request(Get, PullRequestsUrl(repo), JsonContentType, authorization, None)
  }

  /**
   * The upstream service as the fan-out sees it: the response to the call at
   * position `i` of the invocation (counting from 0) for the request sent
   * there. Each call gets its own response, so a repository named twice is
   * fetched twice and the second call may end differently from the first.
   */
  type PagedUpstream = (nat, Request) -> Response<PullRequestPage>

  /** The same service seen from the second call on: call `i` of the rest is call `i + 1` overall. */
  function Later(upstream: PagedUpstream): PagedUpstream {
    (i: nat, request: Request) => upstream(i + 1, request)
  }

  /**
   * What a fan-out over `repos` must have done: issued the requests for a prefix
   * of `repos` in order, and either received an OK response for every
   * repository, returning their pages in order, or stopped at the first
   * response that was not OK, reporting its message.
   */
  ghost predicate IsFanOut(repos: seq<string>, authorization: string, upstream: PagedUpstream,
                           requests: seq<Request>, outcome: Result<seq<PullRequestPage>, string>)
  {
    && |requests| <= |repos|
    && (forall i :: 0 <= i < |requests| ==> requests[i] == PullRequestsRequest(repos[i], authorization))
    && (forall i :: 0 <= i < |requests| - 1 ==> upstream(i, requests[i]).Ok?)
    && (outcome.Success? ==>
          && |requests| == |repos|
          && (forall i :: 0 <= i < |requests| ==> upstream(i, requests[i]).Ok?)
          && |outcome.value| == |repos|
          && (forall i :: 0 <= i < |repos| ==> outcome.value[i] == upstream(i, requests[i]).page))
    && (outcome.Failure? ==>
          && |requests| > 0
          && !upstream(|requests| - 1, requests[|requests| - 1]).Ok?
          && outcome.error == ReadFailureMessage(upstream(|requests| - 1, requests[|requests| - 1])))
  }

  datatype FanOutResult = FanOutResult(requests: seq<Request>, outcome: Result<seq<PullRequestPage>, string>)

  /** The fan-out as a fold over the repository list. */
  function FetchAll(repos: seq<string>, authorization: string, upstream: PagedUpstream): (r: FanOutResult)
    ensures IsFanOut(repos, authorization, upstream, r.requests, r.outcome)
    ensures r.outcome.Success? <==> forall i :: 0 <= i < |repos| ==> upstream(i, PullRequestsRequest(repos[i], authorization)).Ok?
    decreases |repos|
  {
    if |repos| == 0 then FanOutResult([], Success([]))
    else
      var request := PullRequestsRequest(repos[0], authorization);
      var response := upstream(0, request);
      if !response.Ok? then FanOutResult([request], Failure(ReadFailureMessage(response)))
      else
        var rest := FetchAll(repos[1..], authorization, Later(upstream));
        var outcome := if rest.outcome.Success? then Success([response.page] + rest.outcome.value) else Failure(rest.outcome.error);
        FetchAllStep(repos, authorization, upstream, rest.requests, rest.outcome);
        FanOutResult([request] + rest.requests, outcome)
  }

  /** One OK response in front of a fan-out over the remaining repositories is a fan-out over all of them. */
  lemma FetchAllStep(repos: seq<string>, authorization: string, upstream: PagedUpstream,
                     requests: seq<Request>, outcome: Result<seq<PullRequestPage>, string>)
    requires |repos| > 0
    requires upstream(0, PullRequestsRequest(repos[0], authorization)).Ok?
    requires IsFanOut(repos[1..], authorization, Later(upstream), requests, outcome)
    ensures var response := upstream(0, PullRequestsRequest(repos[0], authorization));
      IsFanOut(repos, authorization, upstream, [PullRequestsRequest(repos[0], authorization)] + requests,
               if outcome.Success? then Success([response.page] + outcome.value) else Failure(outcome.error))
  {
    var all := [PullRequestsRequest(repos[0], authorization)] + requests;
    forall i | 1 <= i < |all|
      ensures all[i] == PullRequestsRequest(repos[i], authorization)
      ensures upstream(i, all[i]) == Later(upstream)(i - 1, requests[i - 1])
    {
      assert all[i] == requests[i - 1];
      assert repos[1..][i - 1] == repos[i];
    }
  }

  /** The description of a fan-out leaves no choice: any two runs that satisfy it agree. */
  lemma FanOutDeterministic(repos: seq<string>, authorization: string, upstream: PagedUpstream,
                            requests1: seq<Request>, outcome1: Result<seq<PullRequestPage>, string>,
                            requests2: seq<Request>, outcome2: Result<seq<PullRequestPage>, string>)
    requires IsFanOut(repos, authorization, upstream, requests1, outcome1)
    requires IsFanOut(repos, authorization, upstream, requests2, outcome2)
    ensures requests1 == requests2 && outcome1 == outcome2
  {
    SameLength(repos, authorization, upstream, requests1, outcome1, requests2, outcome2);
    SameLength(repos, authorization, upstream, requests2, outcome2, requests1, outcome1);
    assert requests1 == requests2;
    if outcome1.Success? && outcome2.Success? {
      assert outcome1.value == outcome2.value;
    }
  }

  lemma SameLength(repos: seq<string>, authorization: string, upstream: PagedUpstream,
                   requests1: seq<Request>, outcome1: Result<seq<PullRequestPage>, string>,
                   requests2: seq<Request>, outcome2: Result<seq<PullRequestPage>, string>)
    requires IsFanOut(repos, authorization, upstream, requests1, outcome1)
    requires IsFanOut(repos, authorization, upstream, requests2, outcome2)
    ensures |requests1| <= |requests2|
    ensures |requests1| == |requests2| ==> outcome1.Success? == outcome2.Success?
  {
  }

  /**
   * When the responses for the first `k` repositories are OK and the one for
   * `repos[k]` is not, exactly `k + 1` requests are sent and the fan-out fails
   * with that response's message, whatever the later responses would have been.
   */
  lemma FanOutStopsAtFirstFailure(repos: seq<string>, authorization: string,
                                  upstream: PagedUpstream, k: nat)
    requires k < |repos|
    requires forall i :: 0 <= i < k ==> upstream(i, PullRequestsRequest(repos[i], authorization)).Ok?
    requires !upstream(k, PullRequestsRequest(repos[k], authorization)).Ok?
    ensures var r := FetchAll(repos, authorization, upstream);
      && |r.requests| == k + 1
      && r.outcome == Failure(ReadFailureMessage(upstream(k, PullRequestsRequest(repos[k], authorization))))
  {
    var r := FetchAll(repos, authorization, upstream);
  }

  /** The loop's state when it leaves at the first response that is not OK. */
  lemma LoopStopMatchesFold(repos: seq<string>, authorization: string, upstream: PagedUpstream,
                            requests: seq<Request>, index: nat)
    requires index < |repos| && |requests| == index + 1
    requires forall i :: 0 <= i <= index ==> requests[i] == PullRequestsRequest(repos[i], authorization)
    requires forall i :: 0 <= i < index ==> upstream(i, requests[i]).Ok?
    requires !upstream(index, requests[index]).Ok?
    ensures FanOutResult(requests, Failure(ReadFailureMessage(upstream(index, requests[index])))) == FetchAll(repos, authorization, upstream)
  {
    var expected := FetchAll(repos, authorization, upstream);
    FanOutDeterministic(repos, authorization, upstream, requests, Failure(ReadFailureMessage(upstream(index, requests[index]))),
                        expected.requests, expected.outcome);
  }

  /** The loop's state when every repository got an OK response. */
  lemma LoopEndMatchesFold(repos: seq<string>, authorization: string, upstream: PagedUpstream,
                           requests: seq<Request>, datas: seq<PullRequestPage>)
    requires |requests| == |repos| && |datas| == |repos|
    requires forall i :: 0 <= i < |repos| ==> requests[i] == PullRequestsRequest(repos[i], authorization)
    requires forall i :: 0 <= i < |repos| ==> upstream(i, requests[i]).Ok? && datas[i] == upstream(i, requests[i]).page
    ensures FanOutResult(requests, Success(datas)) == FetchAll(repos, authorization, upstream)
  {
    var expected := FetchAll(repos, authorization, upstream);
    FanOutDeterministic(repos, authorization, upstream, requests, Success(datas), expected.requests, expected.outcome);
  }

  /** The handler's `for` loop: request, check, push, in index order. */
  method FetchPullRequestPages(repos: seq<string>, authorization: string, upstream: PagedUpstream)
    returns (requests: seq<Request>, outcome: Result<seq<PullRequestPage>, string>)
    ensures FanOutResult(requests, outcome) == FetchAll(repos, authorization, upstream)
  {
    var datas: seq<PullRequestPage> := [];
    requests := [];
    var index := 0;
    while index < |repos|
      invariant 0 <= index <= |repos|
      invariant |requests| == index && |datas| == index
      invariant forall i :: 0 <= i < index ==> requests[i] == PullRequestsRequest(repos[i], authorization)
      invariant forall i :: 0 <= i < index ==> upstream(i, requests[i]).Ok? && datas[i] == upstream(i, requests[i]).page
    {
      var request := PullRequestsRequest(repos[index], authorization);
      var response := upstream(index, request);
      requests := requests + [request];
      if !response.Ok? {
        outcome := Failure(ReadFailureMessage(response));
        LoopStopMatchesFold(repos, authorization, upstream, requests, index);
        return;
      }
      datas := datas + [response.page];
      index := index + 1;
    }
    outcome := Success(datas);
    LoopEndMatchesFold(repos, authorization, upstream, requests, datas);
  }

  // ----- the merge as written -----

  /**
   * The JavaScript value held by `result`: `undefined` as declared, or an
   * object whose own properties are array indices, which is all that
   * `Object.assign` can copy into it from arrays.
   */
  datatype Accumulator = Undefined | IndexedObject(entries: map<nat, PullRequestSummary>)

  const AssignToUndefinedMessage := "Cannot convert undefined or null to object"
  const CountOfUndefinedMessage := "Cannot read properties of undefined (reading 'count')"

  /**
   * `Object.assign(target, source)` with an array source: each index of the
   * array becomes (or overwrites) the property of the same index; an
   * `undefined` target raises a TypeError.
   */
  function ObjectAssign(target: Accumulator, source: seq<PullRequestSummary>): (r: Result<Accumulator, Error>)
    ensures r.Failure? <==> target.Undefined?
    ensures r.Success? ==> r.value.IndexedObject?
    ensures r.Success? ==> forall i: nat :: i in r.value.entries <==> i in target.entries || i < |source|
    ensures r.Success? ==> forall i :: 0 <= i < |source| ==> i in r.value.entries && r.value.entries[i] == source[i]
    ensures r.Success? ==> forall i :: i in target.entries && i >= |source| ==>
      i in r.value.entries && r.value.entries[i] == target.entries[i]
  {
    match target
    case Undefined => Failure(UncaughtTypeError(AssignToUndefinedMessage))
    case IndexedObject(entries) =>
      var copied: map<nat, PullRequestSummary> := map i: nat | i < |source| :: source[i];
      assert forall i: nat :: i in copied <==> i < |source|;
      Success(IndexedObject(entries + copied))
  }

  /** Assigns the projected pull requests of each page into `result`, page by page, in order. */
  function MergeAsWritten(result: Accumulator, pages: seq<PullRequestPage>): (r: Result<Accumulator, Error>)
    ensures |pages| == 0 ==> r == Success(result)
    ensures result.Undefined? && |pages| > 0 ==> r == Failure(UncaughtTypeError(AssignToUndefinedMessage))
    ensures result.IndexedObject? ==> r.Success? && r.value.IndexedObject?
    decreases |pages|
  {
    if |pages| == 0 then Success(result)
    else match ObjectAssign(result, ProjectPullRequests(pages[0]))
      case Failure(e) => Failure(e)
      case Success(next) => MergeAsWritten(next, pages[1..])
  }

  /** The value the handler serialises: the `count` property of `result`, and `result` itself. */
  datatype MergedPullRequests = MergedPullRequests(count: Option<nat>, pullRequests: Accumulator)

  /**
   * The end of the handler: merge into the declared `result`, then read its
   * `count` property. It never produces a value: with at least one page the
   * first `Object.assign` throws, and with none reading `count` of `undefined`
   * throws.
   */
  function MergeAndReport(pages: seq<PullRequestPage>): (r: Result<MergedPullRequests, Error>)
    ensures r == Failure(UncaughtTypeError(if |pages| == 0 then CountOfUndefinedMessage else AssignToUndefinedMessage))
  {
    match MergeAsWritten(Undefined, pages)
    case Failure(e) => Failure(e)
    case Success(Undefined) => Failure(UncaughtTypeError(CountOfUndefinedMessage))
    case Success(result) => Success(MergedPullRequests(None, result))
  }

  /** The largest number of pull requests on any one page. */
  function LongestPage(pages: seq<PullRequestPage>): (n: nat)
    ensures forall j :: 0 <= j < |pages| ==> |pages[j].value| <= n
    ensures |pages| > 0 ==> exists j :: 0 <= j < |pages| && |pages[j].value| == n
  {
    if |pages| == 0 then 0
    else
      var rest := LongestPage(pages[1..]);
      if |pages[0].value| >= rest then |pages[0].value| else rest
  }

  /**
   * Even from an initialised object the merge would overwrite instead of
   * append: it adds one entry per index of the longest page, not one per
   * pull request.
   */
  lemma {:induction false} MergeIntoObjectKeepsLongestPage(entries: map<nat, PullRequestSummary>, pages: seq<PullRequestPage>)
    ensures MergeAsWritten(IndexedObject(entries), pages).Success?
    ensures MergeAsWritten(IndexedObject(entries), pages).value.IndexedObject?
    ensures forall i: nat :: i in MergeAsWritten(IndexedObject(entries), pages).value.entries <==>
      i in entries || i < LongestPage(pages)
    decreases |pages|
  {
    if |pages| > 0 {
      var next := ObjectAssign(IndexedObject(entries), ProjectPullRequests(pages[0])).value;
      assert MergeAsWritten(IndexedObject(entries), pages) == MergeAsWritten(next, pages[1..]);
      MergeIntoObjectKeepsLongestPage(next.entries, pages[1..]);
      var longest := LongestPage(pages);
      assert longest == if |pages[0].value| >= LongestPage(pages[1..]) then |pages[0].value| else LongestPage(pages[1..]);
    }
  }

  // ----- the merge as intended -----

  /** `{count, pullRequests}` with the pull requests of all repositories in one list. */
  datatype PullRequestList = PullRequestList(count: nat, pullRequests: seq<PullRequestSummary>)

  /** The projected pull requests of all pages, page after page, each page in its own order. */
  function Flatten(pages: seq<PullRequestPage>): (r: seq<PullRequestSummary>)
    decreases |pages|
  {
    if |pages| == 0 then [] else ProjectPullRequests(pages[0]) + Flatten(pages[1..])
  }

  /** The number of pull requests on all pages together. */
  function TotalPullRequests(pages: seq<PullRequestPage>): nat {
    if |pages| == 0 then 0 else |pages[0].value| + TotalPullRequests(pages[1..])
  }

  /** Flattening one page is projecting it; flattening concatenated lists concatenates the results. */
  lemma {:induction false} FlattenAppend(first: seq<PullRequestPage>, second: seq<PullRequestPage>)
    ensures Flatten(first + second) == Flatten(first) + Flatten(second)
    ensures Flatten([]) == [] && (|first| == 1 ==> Flatten(first) == ProjectPullRequests(first[0]))
    decreases |first|
  {
    if |first| == 0 {
      assert first + second == second;
    } else {
      assert (first + second)[1..] == first[1..] + second;
      FlattenAppend(first[1..], second);
      if |first| == 1 {
        assert first[1..] == [];
      }
    }
  }

  /** Nothing is lost or duplicated: one entry per upstream pull request. */
  lemma {:induction false} FlattenLength(pages: seq<PullRequestPage>)
    ensures |Flatten(pages)| == TotalPullRequests(pages)
    decreases |pages|
  {
    if |pages| > 0 {
      FlattenLength(pages[1..]);
    }
  }

  /** Two pages that would collide by index in the merge as written. */
  function CollidingPages(): seq<PullRequestPage> {
    var first := PullRequest(Some(1), Some("first"), None, None, None, Some(NamedRef(Some("A"))), None, None);
    var second := PullRequest(Some(2), Some("second"), None, None, None, Some(NamedRef(Some("B"))), None, None);
    [PullRequestPage(Some(1), [first]), PullRequestPage(Some(1), [second])]
  }

  /**
   * Repositories A and B with one pull request each: flattening keeps both,
   * in order, while the merge as written, even into an initialised object,
   * keeps only B's, because both land on index 0.
   */
  lemma OverwriteCounterexample()
    ensures |Flatten(CollidingPages())| == 2
    ensures Flatten(CollidingPages())[0].id == Some(1) && Flatten(CollidingPages())[1].id == Some(2)
    ensures MergeAsWritten(IndexedObject(map[]), CollidingPages()).Success?
    ensures MergeAsWritten(IndexedObject(map[]), CollidingPages()).value.entries.Keys == {0}
    ensures MergeAsWritten(IndexedObject(map[]), CollidingPages()).value.entries[0].id == Some(2)
  {
    var pages := CollidingPages();
    FlattenLength(pages);
    FlattenAppend([pages[0]], [pages[1]]);
    assert pages == [pages[0]] + [pages[1]];
    var afterA := ObjectAssign(IndexedObject(map[]), ProjectPullRequests(pages[0])).value;
    var afterB := ObjectAssign(afterA, ProjectPullRequests(pages[1])).value;
    assert afterB.entries.Keys == {0};
    assert MergeAsWritten(afterA, pages[1..]) == MergeAsWritten(afterB, pages[2..]);
  }
}
