/**
 * The parts of the Azure DevOps REST responses (API version 7.0) that the tool
 * handlers read. A field that may be missing from the JSON is an `Option`;
 * fields no handler reads are not modelled.
 */
module AzureDevOps {
  import opened Wrappers
  import opened Json

  const ApiVersion := "7.0"
  const OrganizationUrl := "https://dev.azure.com/msazure/"
  /** The project every read tool addresses, and the default project of create_work_item. */
  const DefaultProject := "Azure AppConfig"

  /** A reference that carries a name (`repo.project`, `pr.repository`). */
  datatype NamedRef = NamedRef(name: Option<string>)

  /** An identity reference (`createdBy`, `author`, `System.AssignedTo`). */
  datatype IdentityRef = IdentityRef(displayName: Option<string>)

  datatype Repository = Repository(
    id: Option<string>,
    name: Option<string>,
    url: Option<string>,
    project: Option<NamedRef>,
    defaultBranch: Option<string>,
    size: Option<nat>,
    remoteUrl: Option<string>,
    webUrl: Option<string>)

  /** The `{count, value}` page returned by `GET git/repositories`. */
  datatype RepositoryPage = RepositoryPage(count: Option<nat>, value: seq<Repository>)

  datatype PullRequest = PullRequest(
    pullRequestId: Option<nat>,
    title: Option<string>,
    status: Option<string>,
    createdBy: Option<IdentityRef>,
    creationDate: Option<string>,
    repository: Option<NamedRef>,
    sourceRefName: Option<string>,
    targetRefName: Option<string>)

  /** The `{count, value}` page returned by `GET git/repositories/{repo}/pullrequests`. */
  datatype PullRequestPage = PullRequestPage(count: Option<nat>, value: seq<PullRequest>)

  datatype Comment = Comment(
    id: Option<nat>,
    content: Option<string>,
    author: Option<IdentityRef>,
    publishedDate: Option<string>,
    lastUpdatedDate: Option<string>,
    commentType: Option<string>)

  datatype Thread = Thread(
    id: Option<nat>,
    status: Option<string>,
    threadContext: Option<Json>,
    comments: seq<Comment>)

  /** The `{count, value}` page returned by `GET .../pullrequests/{id}/threads`. */
  datatype ThreadPage = ThreadPage(count: Option<nat>, value: seq<Thread>)

  datatype Link = Link(href: Option<string>)

  /** The `_links` object of a work item; only its `web` link is read. */
  datatype Links = Links(web: Option<Link>)

  /** The `fields` object of a work item, by reference name. */
  datatype WorkItemFields = WorkItemFields(
    workItemType: Option<string>,   // System.WorkItemType
    title: Option<string>,          // System.Title
    state: Option<string>,          // System.State
    createdBy: Option<IdentityRef>, // System.CreatedBy
    assignedTo: Option<IdentityRef>) // System.AssignedTo

  /** The work item returned by `POST wit/workitems/${type}`. */
  datatype WorkItem = WorkItem(
    id: Option<nat>,
    url: Option<string>,
    links: Option<Links>,
    fields: WorkItemFields)
}
