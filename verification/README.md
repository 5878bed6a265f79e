# Azure DevOps MCP server: tool handlers in Dafny

This project models the four tools of the Azure DevOps MCP server (`createServer` in `src/server.ts`):

- `get_all_repos` lists the repositories of the fixed project.
- `get_all_authored_pull_requests` fans out over a list of repositories and gathers the active pull requests of a fixed creator.
- `get_comments_on_pull_request` lists the comment threads of one pull request.
- `create_work_item` posts a JSON Patch document that creates a Task or a Bug.

Each handler is a pure function. Its inputs are the validated tool arguments, the PAT read from the environment (an `Option<string>`), and the upstream service. A response is `Ok(page)`, `Err(status, statusText, bodyText)`, or `Rejected(message)`. For the three tools that send at most one request, the upstream service is a function from the `Request` value to its `Response`. The pull request fan-out may send the same request more than once, because the repository list can repeat a name. There the service is a function of the call's position in the invocation and the request, so each call gets its own response. `Rejected` covers a failed `fetch` and a body that is not JSON. Each handler returns an `Invocation`: the requests it issued, in order, and either the projected result or the `Error` it raised.

The model has one module per file:

| module | file | what it models |
|---|---|---|
| `Wrappers` | wrappers.dfy | `Option` for possibly-undefined JSON fields, `Result`, JavaScript truthiness of a string, and `Byte` |
| `Decimal` | decimal.dfy | `toString` / template interpolation of whole numbers below 10^21, with a parser as partner |
| `Utf8` | utf8.dfy | the UTF-8 step of `Buffer.from`, with a strict decoder as partner |
| `Base64` | base64.dfy | `toString('base64')`, section 4 of RFC 4648, with a strict decoder as partner |
| `UriComponent` | uri_component.dfy | `encodeURIComponent`, with percent-decoding as partner |
| `Json` | json.dfy | the opaque `threadContext` value |
| `AzureDevOps` | azure_devops.dfy | the upstream records the handlers read, and the fixed organization, project and API version |
| `Projection` | projection.dfy | the four result projections |
| `JsonPatch` | json_patch.dfy | the RFC 6902 document type, and "add" applied to a field map |
| `WorkItemPatch` | work_item_patch.dfy | the patch document builder and tag joining |
| `Http` | http.dfy | requests, responses, errors and the "Azure DevOps API returned …" messages |
| `Auth` | auth.dfy | the PAT check, and the Basic header of section 2 of RFC 7617 with a parser as partner |
| `FanOut` | fan_out.dfy | the pull request fan-out (fold and loop), the merge as written, and the flattening merge |
| `Tools` | tools.dfy | the four handlers |
| `Scenarios` | scenarios.dfy | worked cases on concrete inputs |

## Model

| member | source | states |
|---|---|---|
| Auth.ResolvePat | src/server.ts:16-19 | The PAT is accepted exactly when it is present and non-empty. Otherwise the handler's own "PAT is required" message is raised as `MissingCredential`. |
| Auth.AuthorizationHeader | src/server.ts:32-34 | The header starts with "Basic ". Reading it back as RFC 7617 credentials gives an empty user-id and the whole PAT as password, colons included. |
| Auth.AuthorizationHeaderExample | src/server.ts:33-34 | For the PAT "abc" the header is exactly "Basic OmFiYw==". |
| Auth.AuthorizationHeaderInjective | src/server.ts:33 | Two PATs give the same header only when they are equal. |
| Base64.Encode | src/server.ts:33 | The output has 4·⌈n/3⌉ characters, each from the base 64 alphabet or `=`. |
| Base64.DecodeEncode | src/server.ts:33 | Decoding the encoding of any byte sequence gives back those bytes. |
| Utf8.EncodeChar | src/server.ts:33 | Each scalar value takes 1 to 4 bytes. It takes a single byte exactly when it is ASCII. Every byte after the first is a continuation byte. |
| Utf8.DecodeEncode | src/server.ts:33 | Decoding the UTF-8 bytes of any string gives back the string. |
| Utf8.EncodeAscii | src/server.ts:33 | An ASCII PAT is encoded as one byte per character, each byte being the character's code. |
| Decimal.FromNat | src/server.ts:282 | The rendering is non-empty, all digits and without a leading zero, and it denotes the number rendered. |
| Decimal.ParseFromNat | src/server.ts:282 | Parsing the rendering of any number gives back that number. |
| Decimal.FromNatInjective | src/server.ts:282 | Distinct numbers render to distinct strings. |
| WorkItemPatch.BuildPatchDocument | src/server.ts:268-302 | The document holds 3 to 5 "add" operations. Title, description and the priority's decimal string come first, in that order. Then comes the assignee, exactly when it is a non-empty string. Last come the tags joined by "; ", exactly when the list is given and non-empty. |
| WorkItemPatch.PatchDocumentFields | src/server.ts:268-302 | Applied to a new item, the document sets exactly title, description and priority, plus assignee and tags when they are given. Each field gets the caller's value, and the priority field parses back to the priority. |
| WorkItemPatch.SplitJoinTags | src/server.ts:300 | A non-empty tag list without ';' is recovered by splitting its joined value at "; ". |
| JsonPatch.ApplyPatchAppend | src/server.ts:287-302 | Applying a document and then appended operations is the same as applying the longer document, as the `push` calls extend it. |
| Projection.NameOf | src/server.ts:57 | `x?.name` is present exactly when the reference and its name are both present. |
| Projection.DisplayNameOf | src/server.ts:217 | `x?.displayName` is present exactly when the identity and its display name are both present. |
| Projection.ProjectRepository | src/server.ts:53-62 | The eight kept fields are copied. `project` is absent when upstream has no project, and is the project's name otherwise. |
| Projection.ProjectRepositories | src/server.ts:52-62 | `count` is kept. There is one summary per upstream repository, and the one at position i comes from `value[i]`. |
| Projection.ProjectRepositoryKeepsSelectedFields | src/server.ts:53-62 | Two repositories project alike exactly when they agree on the kept fields and on the project name. |
| Projection.ProjectComment | src/server.ts:214-221 | The comment fields are kept, and `author` is the author's display name or absent. |
| Projection.ProjectThread | src/server.ts:210-222 | The thread fields are kept, and there is one projected comment per upstream comment, in order. A thread with no comments yields an empty list. |
| Projection.ProjectThreads | src/server.ts:209-222 | `count` is kept. There is one projected thread per upstream thread, in order. |
| Projection.ProjectThreadsKeepsCommentCount | src/server.ts:210-222 | The two-level projection keeps the total number of comments over all threads. |
| Projection.ProjectWorkItem | src/server.ts:326-335 | `url` is the web link when it is present and non-empty, and the API `url` otherwise. The message is "Successfully created <type> work item #<id>: <title>", using the tool's own type and title arguments. |
| Projection.CreatedMessageCarriesId | src/server.ts:334 | The confirmation message contains the id's decimal digits after the `#`, those digits parse back to the id, and ": <title>" follows them. |
| Projection.ProjectPullRequest | src/server.ts:133-143 | The pull request fields are kept. `url` is built from the repository name and the id, not taken from upstream. |
| Projection.ProjectPullRequests | src/server.ts:133-143 | There is one summary per pull request on the page, in order. |
| Projection.PullRequestWebUrlOfKnownFields | src/server.ts:142 | For a named repository and a numeric id, the url is "<project>/_git/<repo>/pullrequest/<id>". |
| UriComponent.DecodeEncode | src/server.ts:306 | `decodeURIComponent(encodeURIComponent(s)) == s` for every string. |
| UriComponent.EncodeUnreservedIdentity | src/server.ts:306 | A string of unreserved characters, such as "Task" or "Bug", is left unchanged. |
| UriComponent.EncodeSpaceBetweenWords | src/server.ts:306 | A space between unreserved words becomes %20, so the default project is sent as "Azure%20AppConfig". |
| Http.StatusMessage | src/server.ts:41 | The message is the fixed prefix "Azure DevOps API returned ", then the status in decimal, then ": " and the status text. The status parses back from the digits between prefix and colon. |
| Http.ReadFailureMessage | src/server.ts:117-127 | A non-2xx response is reported by the status message. A rejected `fetch` or JSON read is reported by its own message, unchanged. |
| Http.WriteFailureMessage | src/server.ts:315-318 | A non-2xx response on the write path is the read message followed by ". Details: " and the response body. A rejection is reported as on the read path. |
| FanOut.FetchAll | src/server.ts:107-128 | Requests go out for a prefix of `repos`, in order, one per repository, including one per repetition of a name. Every request before the last got an OK response to its own call. The fan-out succeeds exactly when every response is OK, and then returns page i from `repos[i]`. Otherwise the last request is the first failure, and its message is reported with no pages. |
| FanOut.FanOutDeterministic | src/server.ts:107-123 | Any two runs that meet the fan-out's description issue the same requests and end the same way. |
| FanOut.FanOutStopsAtFirstFailure | src/server.ts:110-128 | If the first k responses are OK and response k is not, exactly k+1 requests are sent and that response's message is reported, whatever later responses would have been. |
| FanOut.FetchPullRequestPages | src/server.ts:107-123 | The `for` loop with `push` computes the same requests and outcome as the fold. |
| FanOut.ObjectAssign | src/server.ts:133 | Assigning into `undefined` throws. Assigning into an object sets property i to element i, and keeps earlier properties only beyond the array's length. |
| FanOut.MergeAsWritten | src/server.ts:132-144 | With no pages, `result` is returned unchanged. Starting from `undefined`, the first page throws "Cannot convert undefined or null to object". Starting from an object, every page merges without error and the result is still an object. |
| FanOut.MergeAndReport | src/server.ts:130-153 | The merge into the never-assigned `result`, followed by reading `result.count`, always ends in an uncaught TypeError. With pages it throws at `Object.assign`, and with no pages it throws when reading `count` of `undefined`. |
| FanOut.MergeIntoObjectKeepsLongestPage | src/server.ts:132-144 | Even merging into an initialised object would produce one entry per index of the longest page, not one per pull request. |
| FanOut.OverwriteCounterexample | src/server.ts:132-144 | With two repositories of one pull request each, flattening keeps both in order. The index-wise merge keeps only the second one. |
| FanOut.FlattenAppend | src/server.ts:132-144 | Flattening one page is projecting it, and flattening concatenated page lists concatenates the results, so input order is preserved. |
| FanOut.FlattenLength | src/server.ts:132-144 | The flattened list has one entry per upstream pull request over all pages. |
| Tools.GetAllRepos | src/server.ts:14-72 | Without a PAT no request is sent. Otherwise exactly one authenticated GET is sent to the repository list. An OK response yields the projected list, and any other response raises "Failed to fetch repositories: …". |
| Tools.GetAllAuthoredPullRequests | src/server.ts:81-157 | Without a PAT no request is sent. Otherwise the requests are those of the fan-out with the Basic header, and a failed fan-out raises "Failed to fetch pull requests: …". After an all-OK fan-out, the merge's TypeError escapes without the tool's prefix. Its message names `Object.assign`'s target when there are repositories, and the read of `count` when the list is empty. |
| Tools.AuthoredPullRequestsNeverSucceed | src/server.ts:107-153 | The handler as written never returns a result, for any repositories and any responses. |
| Tools.GetAllAuthoredPullRequestsFlattened | src/server.ts:107-153 | The corrected handler succeeds exactly when the PAT is present and every response is OK. It then returns all projected pull requests in input order, with their total as the count. |
| Tools.GetCommentsOnPullRequest | src/server.ts:167-232 | An empty repository name or PR id fails before the PAT check, and a missing PAT fails next, both without any request. Otherwise exactly one authenticated GET of the threads is sent. An OK response yields the projected threads, and any other response raises "Failed to fetch PR comments: …". |
| Tools.CreateWorkItem | src/server.ts:247-344 | Without a PAT no request is sent. Otherwise exactly one authenticated POST is sent, with the JSON Patch content type, the built document, and the project and type percent-encoded in the URL. An OK response yields the projection, and any other response raises "Failed to create work item: …" with the response body. |
| Scenarios.EmptyRepositoryDoesNotBreakAggregation | src/server.ts:107-143 | Repository A with two pull requests and B with none: the flattened result has A's two pull requests, in order, and a count of 2. |
| Scenarios.RepeatedRepositoryCanFailOnSecondCall | src/server.ts:110-128 | A repository named twice is fetched twice with identical requests. A 503 on the second call, after an OK first call, ends the tool with "Failed to fetch pull requests: Azure DevOps API returned 503: …". |
| Scenarios.AsWrittenFailsEvenForOneRepository | src/server.ts:130-133 | A single repository with an OK response still ends in "Cannot convert undefined or null to object". |
| Scenarios.TagsExamples | src/server.ts:296-302 | An empty tag list adds no operation, and ["x", "y"] adds one operation with the value "x; y". |
| Scenarios.PriorityExample | src/server.ts:279-283 | Priority 1 is sent as "1". |
| Scenarios.ThreadWithoutCommentsExample | src/server.ts:214 | A thread without comments is kept, with an empty comment list. |

## Left out

- HTTP transport, `fetch`, `response.json()` and `response.text()`. The upstream service is a function parameter, and a failed `fetch` or JSON parse is the `Rejected(message)` response. A failure of `response.text()` on the write error path is not modelled.
- URL normalisation by `fetch`. The read tools' URLs contain the raw space of "Azure AppConfig" and are modelled as the strings the handlers build.
- `process.env`. The PAT is an `Option<string>` parameter.
- MCP tool registration and zod validation. The declared shapes are the argument types: `WorkItemType` is `Task | Bug`, `priority` is in 1..4 with default 2, and `project` defaults to "Azure AppConfig".
- CreateWorkItem: fractional priorities (zod's `number()` admits 2.5) are not modelled. The priority is a whole number, so its text is always a plain decimal.
- `JSON.stringify` pretty-printing and the `{content: [{type: "text", …}]}` wrapper. The results are records.
- `console.error` logging, which is a side effect only.
- async/await. The fan-out awaits each request in turn, so it is a sequential fold.
- Upstream responses that lack a field the handlers index into: the `value` array of a page, a thread's `comments` array, or a work item's `fields` object. The model's record types make these mandatory. In get_all_repos, get_comments_on_pull_request and create_work_item, the source would raise a TypeError inside its `try` and report it with the tool's prefix. In get_all_authored_pull_requests, `value` is read after the `try`, so the TypeError would escape without the prefix.
- Upstream fields that no handler reads. Apart from the mandatory `value`, `comments` and `fields` above, every field a handler reads is an `Option`.
- Projection.ProjectPullRequest: a JSON `null` and an absent field are both `None`. Where the source interpolates a field into a template, a `null` repository name (server.ts:142) is written "null" by JavaScript but "undefined" by the model. The same holds in Projection.ProjectWorkItem for a `null` id in the success message (server.ts:334). Telling the two apart would need a three-valued field type, and the only difference is these two strings.
- Decimal.FromNat: ids, counts and HTTP statuses are unbounded naturals. JavaScript numbers are doubles, so the source writes values of 10^21 and above with an exponent, and cannot represent every integer above 2^53. Such values do not occur as Azure DevOps ids or HTTP statuses.
- The `!repos` guard of get_all_authored_pull_requests. It cannot fire for an array, even an empty one.
- Lone UTF-16 surrogates. A Dafny `char` is a Unicode scalar value, so the U+FFFD substitution of `Buffer.from` and the `URIError` of `encodeURIComponent` cannot occur.
- The upstream `count` of pull request pages. The source never reads it.

Behaviours of the code a reader may not expect:

- The pull request tool accepts an empty repository list: no request is sent, and it still fails at `result.count`.
- The merge is not a flattening (see Findings).
- `url` in the work item result falls back to the API url also when the web link is an empty string, because the code uses `||`.

## Findings

| source | as written | input that shows it | evidently intended | confidence | as-written member | corrected member |
|---|---|---|---|---|---|---|
| src/server.ts:130-153 | `result` is declared and never assigned. `Object.assign(result, …)` then throws a TypeError for the first page, and with no pages `result.count` throws. The tool never returns a result. | any present PAT, `repos = ["A"]`, and an OK response for A | the pull requests of all repositories in one list, in input order, with their number as the count | high, not executed | Tools.AuthoredPullRequestsNeverSucceed | Tools.GetAllAuthoredPullRequestsFlattened |
| src/server.ts:132-144 | `Object.assign` copies array elements by index. Even into an initialised object, later repositories overwrite earlier ones. The object also has no `count` property. | repositories A and B with one pull request each: only B's survives, at index 0 | concatenation of every repository's projected pull requests | high, not executed | FanOut.OverwriteCounterexample | FanOut.FlattenAppend |
