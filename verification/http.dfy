/**
 * The request/response boundary towards Azure DevOps and the errors a tool
 * invocation ends with. A request is a value; the upstream service is a
 * function from requests to responses that the handlers receive as a parameter.
 */
module Http {
  import opened Wrappers
  import opened JsonPatch
  import opened AzureDevOps
  import Decimal

  /** The git API of the fixed project, which the read tools address directly. */
  const RepositoriesUrl := OrganizationUrl + DefaultProject + "/_apis/git/repositories"

  const JsonContentType := "application/json"
  const JsonPatchContentType := "application/json-patch+json"

  datatype Method = Get | Post

  datatype Request = Request(
    verb: Method,
    url: string,
    contentType: string,
    authorization: string,
    body: Option<PatchDocument>)

  /**
   * What `fetch` yields for one request: a successful response whose JSON body
   * has been read as a page, a response whose status is not 2xx, or a rejection
   * (network failure or a body that is not valid JSON) carrying its message.
   */
  datatype Response<P> =
    | Ok(page: P)
    | Err(status: nat, statusText: string, bodyText: string)
    | Rejected(message: string)

  /** How an invocation ends when it does not return a result. */
  datatype Error =
    | MissingCredential(message: string)  // no PAT: raised before any request
    | MissingArgument(message: string)    // an empty required argument: raised before any request
    | ToolFailure(message: string)        // caught in the handler and rethrown with the tool's prefix
    | UncaughtTypeError(message: string)  // a JavaScript TypeError that escapes the handler

  const StatusPrefix := "Azure DevOps API returned "

  /**
   * The message for a response whose status is not 2xx: the fixed prefix, the
   * status in decimal, a colon and a space, then the status text. The status
   * reads back from the digits between prefix and colon.
   */
  function StatusMessage(status: nat, statusText: string): (r: string)
    ensures |r| > |StatusPrefix| + 2 + |statusText|
    ensures r[..|StatusPrefix|] == StatusPrefix
    ensures r[|r| - |statusText| - 2..] == ": " + statusText
    ensures Decimal.Parse(r[|StatusPrefix|..|r| - |statusText| - 2]) == Some(status)
  {
    var digits := Decimal.FromNat(status);
    var r := StatusPrefix + digits + ": " + statusText;
    assert r[|StatusPrefix|..|r| - |statusText| - 2] == digits;
    Decimal.ParseFromNat(status);
    r
  }

  /** The message of the error a read-style handler raises for a failed response. */
  function ReadFailureMessage<P>(response: Response<P>): (r: string)
    requires !response.Ok?
    ensures response.Err? ==> r == StatusMessage(response.status, response.statusText)
    ensures response.Rejected? ==> r == response.message
  {
    match response
    case Err(status, statusText, _) => StatusMessage(status, statusText)
    case Rejected(message) => message
  }

  /** The message for a failed write: a non-2xx status also reports the response body. */
  function WriteFailureMessage<P>(response: Response<P>): (r: string)
    requires !response.Ok?
    ensures response.Err? ==> r == ReadFailureMessage(response) + ". Details: " + response.bodyText
    ensures response.Rejected? ==> r == ReadFailureMessage(response)
  {
    match response
    case Err(status, statusText, bodyText) => StatusMessage(status, statusText) + ". Details: " + bodyText
    case Rejected(message) => message
  }
}
