/**
 * The projections the tool handlers apply to upstream pages before returning
 * them: each keeps a fixed set of fields, copies `count` through, maps every
 * element of `value` in order, and turns a missing optional reference into an
 * absent field instead of an error (JavaScript's `x?.name`).
 */
module Projection {
  import opened Wrappers
  import opened Json
  import opened AzureDevOps
  import Decimal

  /** `ref?.name`: absent when the reference or its name is absent. */
  function NameOf(ref: Option<NamedRef>): (r: Option<string>)
    ensures r.Some? <==> ref.Some? && ref.value.name.Some?
    ensures r.Some? ==> r.value == ref.value.name.value
  {
    match ref
    case None => None
    case Some(n) => n.name
  }

  /** `identity?.displayName`: absent when the identity or its display name is absent. */
  function DisplayNameOf(identity: Option<IdentityRef>): (r: Option<string>)
    ensures r.Some? <==> identity.Some? && identity.value.displayName.Some?
    ensures r.Some? ==> r.value == identity.value.displayName.value
  {
    match identity
    case None => None
    case Some(i) => i.displayName
  }

  /**
   * How a template literal writes a possibly-undefined string: `${undefined}` is
   * "undefined". A JSON `null` is also read as `None` here, where JavaScript
   * would write "null".
   */
  function TemplateText(o: Option<string>): string {
    match o
    case None => "undefined"
    case Some(s) => s
  }

  /** How a template literal writes a possibly-undefined whole number. */
  function TemplateNumber(o: Option<nat>): string {
    match o
    case None => "undefined"
    case Some(n) => Decimal.FromNat(n)
  }

  // ----- get_all_repos -----

  datatype RepositorySummary = RepositorySummary(
    id: Option<string>,
    name: Option<string>,
    url: Option<string>,
    project: Option<string>,
    defaultBranch: Option<string>,
    size: Option<nat>,
    remoteUrl: Option<string>,
    webUrl: Option<string>)

  datatype RepositoryList = RepositoryList(count: Option<nat>, repositories: seq<RepositorySummary>)

  function ProjectRepository(repo: Repository): (s: RepositorySummary)
    ensures s.id == repo.id && s.name == repo.name && s.url == repo.url
    ensures s.defaultBranch == repo.defaultBranch && s.size == repo.size
    ensures s.remoteUrl == repo.remoteUrl && s.webUrl == repo.webUrl
    ensures repo.project.None? ==> s.project.None?
    ensures repo.project.Some? ==> s.project == repo.project.value.name
  {
    RepositorySummary(repo.id, repo.name, repo.url, NameOf(repo.project),
                      repo.defaultBranch, repo.size, repo.remoteUrl, repo.webUrl)
  }

  function ProjectRepositories(page: RepositoryPage): (r: RepositoryList)
    ensures r.count == page.count
    ensures |r.repositories| == |page.value|
    ensures forall i :: 0 <= i < |page.value| ==> r.repositories[i] == ProjectRepository(page.value[i])
  {
    RepositoryList(page.count, seq(|page.value|, i requires 0 <= i < |page.value| => ProjectRepository(page.value[i])))
  }

  /** Two repositories project alike exactly when they agree on every field the projection keeps. */
  lemma ProjectRepositoryKeepsSelectedFields(a: Repository, b: Repository)
    ensures ProjectRepository(a) == ProjectRepository(b) <==>
      a.id == b.id && a.name == b.name && a.url == b.url && NameOf(a.project) == NameOf(b.project)
      && a.defaultBranch == b.defaultBranch && a.size == b.size
      && a.remoteUrl == b.remoteUrl && a.webUrl == b.webUrl
  {
  }

  // ----- get_comments_on_pull_request -----

  datatype CommentSummary = CommentSummary(
    id: Option<nat>,
    content: Option<string>,
    author: Option<string>,
    publishedDate: Option<string>,
    lastUpdatedDate: Option<string>,
    commentType: Option<string>)

  datatype ThreadSummary = ThreadSummary(
    id: Option<nat>,
    status: Option<string>,
    threadContext: Option<Json>,
    comments: seq<CommentSummary>)

  datatype ThreadList = ThreadList(count: Option<nat>, threads: seq<ThreadSummary>)

  function ProjectComment(comment: Comment): (s: CommentSummary)
    ensures s.id == comment.id && s.content == comment.content
    ensures s.author == DisplayNameOf(comment.author)
    ensures s.publishedDate == comment.publishedDate && s.lastUpdatedDate == comment.lastUpdatedDate
    ensures s.commentType == comment.commentType
  {
    CommentSummary(comment.id, comment.content, DisplayNameOf(comment.author),
                   comment.publishedDate, comment.lastUpdatedDate, comment.commentType)
  }

  function ProjectThread(thread: Thread): (s: ThreadSummary)
    ensures s.id == thread.id && s.status == thread.status && s.threadContext == thread.threadContext
    ensures |s.comments| == |thread.comments|
    ensures forall j :: 0 <= j < |thread.comments| ==> s.comments[j] == ProjectComment(thread.comments[j])
  {
    ThreadSummary(thread.id, thread.status, thread.threadContext,
                  seq(|thread.comments|, j requires 0 <= j < |thread.comments| => ProjectComment(thread.comments[j])))
  }

  function ProjectThreads(page: ThreadPage): (r: ThreadList)
    ensures r.count == page.count
    ensures |r.threads| == |page.value|
    ensures forall i :: 0 <= i < |page.value| ==> r.threads[i] == ProjectThread(page.value[i])
  {
    ThreadList(page.count, seq(|page.value|, i requires 0 <= i < |page.value| => ProjectThread(page.value[i])))
  }

  /** The number of comments across all upstream threads. */
  function UpstreamCommentCount(threads: seq<Thread>): nat {
    if |threads| == 0 then 0 else |threads[0].comments| + UpstreamCommentCount(threads[1..])
  }

  /** The number of comments across all projected threads. */
  function ProjectedCommentCount(threads: seq<ThreadSummary>): nat {
    if |threads| == 0 then 0 else |threads[0].comments| + ProjectedCommentCount(threads[1..])
  }

  /** No comment is lost or invented: the two-level projection keeps the total comment count. */
  lemma {:induction false} ProjectThreadsKeepsCommentCount(page: ThreadPage)
    ensures ProjectedCommentCount(ProjectThreads(page).threads) == UpstreamCommentCount(page.value)
  {
    ThreadsCommentCount(page.value, ProjectThreads(page).threads);
  }

  lemma {:induction false} ThreadsCommentCount(upstream: seq<Thread>, projected: seq<ThreadSummary>)
    requires |projected| == |upstream|
    requires forall i :: 0 <= i < |upstream| ==> projected[i] == ProjectThread(upstream[i])
    ensures ProjectedCommentCount(projected) == UpstreamCommentCount(upstream)
  {
    if |upstream| > 0 {
      ThreadsCommentCount(upstream[1..], projected[1..]);
    }
  }

  // ----- create_work_item -----

  /** The two work item types the tool accepts. */
  datatype WorkItemType = Task | Bug {
    function Name(): string {
      match this
      case Task => "Task"
      case Bug => "Bug"
    }
  }

  datatype WorkItemSummary = WorkItemSummary(
    id: Option<nat>,
    url: Option<string>,
    workItemType: Option<string>,
    title: Option<string>,
    state: Option<string>,
    createdBy: Option<string>,
    assignedTo: Option<string>,
    message: string)

  /** The href of the work item's web link, absent when any step of the path is absent. */
  function WebHref(item: WorkItem): Option<string> {
    match item.links
    case None => None
    case Some(links) =>
      match links.web
      case None => None
      case Some(link) => link.href
  }

  /** The confirmation text: "Successfully created <type> work item #<id>: <title>". */
  function CreatedMessage(kind: WorkItemType, id: Option<nat>, title: string): string {
    "Successfully created " + kind.Name() + " work item #" + TemplateNumber(id) + ": " + title
  }

  /**
   * Projects the created work item. `kind` and `title` are the tool's own
   * arguments, which the confirmation message uses instead of the upstream fields.
   */
  function ProjectWorkItem(item: WorkItem, kind: WorkItemType, title: string): (s: WorkItemSummary)
    ensures s.id == item.id
    ensures WebHref(item).Some? && WebHref(item).value != "" ==> s.url == WebHref(item)
    ensures WebHref(item).None? || WebHref(item).value == "" ==> s.url == item.url
    ensures s.workItemType == item.fields.workItemType && s.title == item.fields.title
    ensures s.state == item.fields.state
    ensures s.createdBy == DisplayNameOf(item.fields.createdBy)
    ensures s.assignedTo == DisplayNameOf(item.fields.assignedTo)
    ensures s.message == "Successfully created " + kind.Name() + " work item #" + TemplateNumber(item.id) + ": " + title
  {
    // `a || b` yields `a` when it is truthy; an absent or empty string is falsy.
    var url := if WebHref(item).Some? && WebHref(item).value != "" then WebHref(item) else item.url;
    WorkItemSummary(item.id, url, item.fields.workItemType, item.fields.title, item.fields.state,
                    DisplayNameOf(item.fields.createdBy), DisplayNameOf(item.fields.assignedTo),
                    CreatedMessage(kind, item.id, title))
  }

  /** The id of a created work item can be read back from the confirmation message. */
  lemma CreatedMessageCarriesId(kind: WorkItemType, id: nat, title: string)
    ensures var m := CreatedMessage(kind, Some(id), title);
      var start := |"Successfully created " + kind.Name() + " work item #"|;
      var digits := Decimal.FromNat(id);
      m[start..start + |digits|] == digits && Decimal.Parse(digits) == Some(id)
      && m[start + |digits|..] == ": " + title
  {
    var prefix := "Successfully created " + kind.Name() + " work item #";
    var m := CreatedMessage(kind, Some(id), title);
    var digits := Decimal.FromNat(id);
    assert m == prefix + digits + (": " + title);
    Decimal.ParseFromNat(id);
  }

  // ----- get_all_authored_pull_requests -----

  const PullRequestWebBase := OrganizationUrl + DefaultProject + "/_git/"

  datatype PullRequestSummary = PullRequestSummary(
    id: Option<nat>,
    title: Option<string>,
    status: Option<string>,
    createdBy: Option<string>,
    creationDate: Option<string>,
    repository: Option<string>,
    sourceRefName: Option<string>,
    targetRefName: Option<string>,
    url: string)

  /** The web address of a pull request, built from its repository name and id rather than taken from upstream. */
  function PullRequestWebUrl(pr: PullRequest): string {
    PullRequestWebBase + TemplateText(NameOf(pr.repository)) + "/pullrequest/" + TemplateNumber(pr.pullRequestId)
  }

  function ProjectPullRequest(pr: PullRequest): (s: PullRequestSummary)
    ensures s.id == pr.pullRequestId && s.title == pr.title && s.status == pr.status
    ensures s.createdBy == DisplayNameOf(pr.createdBy) && s.creationDate == pr.creationDate
    ensures s.repository == NameOf(pr.repository)
    ensures s.sourceRefName == pr.sourceRefName && s.targetRefName == pr.targetRefName
    ensures s.url == PullRequestWebUrl(pr)
  {
    PullRequestSummary(pr.pullRequestId, pr.title, pr.status, DisplayNameOf(pr.createdBy), pr.creationDate,
                       NameOf(pr.repository), pr.sourceRefName, pr.targetRefName, PullRequestWebUrl(pr))
  }

  function ProjectPullRequests(page: PullRequestPage): (r: seq<PullRequestSummary>)
    ensures |r| == |page.value|
    ensures forall i :: 0 <= i < |page.value| ==> r[i] == ProjectPullRequest(page.value[i])
  {
    seq(|page.value|, i requires 0 <= i < |page.value| => ProjectPullRequest(page.value[i]))
  }

  /** A named repository and a numeric id give the address `<base><repository>/pullrequest/<id>`. */
  lemma PullRequestWebUrlOfKnownFields(pr: PullRequest, repo: string, id: nat)
    requires pr.repository == Some(NamedRef(Some(repo))) && pr.pullRequestId == Some(id)
    ensures ProjectPullRequest(pr).url == PullRequestWebBase + repo + "/pullrequest/" + Decimal.FromNat(id)
  {
  }
}
