/**
 * Credentials: the PAT check every handler performs first, and the HTTP Basic
 * authentication header (section 2 of RFC 7617) built from an empty user-id and
 * the PAT as password, base 64 encoded over its UTF-8 bytes.
 */
module Auth {
  import opened Wrappers
  import opened Http
  import Utf8
  import Base64

  /** Raised by get_all_repos and create_work_item when the PAT is missing. */
  const PatRequiredSetVariable := "PAT is required. Set AZURE_DEVOPS_PAT environment variable."
  /** Raised by get_all_authored_pull_requests and get_comments_on_pull_request when the PAT is missing. */
  const PatRequiredProvideOrSet := "PAT is required. Provide it as a parameter or set AZURE_DEVOPS_PAT environment variable."

  const BasicScheme := "Basic "

  /**
   * The handler's guard on the environment value: usable only when it is
   * present and non-empty. `missing` is the handler's own message.
   */
  function ResolvePat(pat: Option<string>, missing: string): (r: Result<string, Error>)
    ensures r.Success? <==> pat.Some? && pat.value != ""
    ensures r.Success? ==> r.value == pat.value
    ensures r.Failure? ==> r.error == MissingCredential(missing)
  {
    if Truthy(pat) then Success(pat.value) else Failure(MissingCredential(missing))
  }

  /** Splits `user-id ":" password` at its first colon (section 2 of RFC 7617). */
  function SplitUserPass(s: string): (r: Option<(string, string)>)
    ensures r.Some? ==> s == r.value.0 + ":" + r.value.1
    ensures r.Some? ==> forall k :: 0 <= k < |r.value.0| ==> r.value.0[k] != ':'
    decreases |s|
  {
    if |s| == 0 then None
    else if s[0] == ':' then Some(("", s[1..]))
    else match SplitUserPass(s[1..])
      case None => None
      case Some((user, password)) => Some(([s[0]] + user, password))
  }

  /** Reads the user-id and password back out of a Basic authorization header value. */
  function ParseBasicCredentials(header: string): Option<(string, string)> {
    if |header| < |BasicScheme| || header[..|BasicScheme|] != BasicScheme then None
    else match Base64.Decode(header[|BasicScheme|..])
      case None => None
      case Some(bytes) =>
        match Utf8.Decode(bytes)
        case None => None
        case Some(text) => SplitUserPass(text)
  }

  /**
   * The Basic scheme followed by the base 64 form of the UTF-8 bytes of a
   * colon and the PAT. The header carries the empty user-id and the whole PAT
   * as password, colons included.
   */
  function AuthorizationHeader(pat: string): (h: string)
    ensures |h| >= |BasicScheme| && h[..|BasicScheme|] == BasicScheme
    ensures ParseBasicCredentials(h) == Some(("", pat))
  {
    var bytes := Utf8.Encode(":" + pat);
    var h := BasicScheme + Base64.Encode(bytes);
    assert h[..|BasicScheme|] == BasicScheme;
    assert h[|BasicScheme|..] == Base64.Encode(bytes);
    Base64.DecodeEncode(bytes);
    Utf8.DecodeEncode(":" + pat);
    assert (":" + pat)[1..] == pat;
    h
  }

  /** Different tokens give different headers. */
  lemma AuthorizationHeaderInjective(p: string, q: string)
    ensures AuthorizationHeader(p) == AuthorizationHeader(q) <==> p == q
  {
  }

  /** The worked example: the PAT "abc" gives the header "Basic OmFiYw==". */
  lemma AuthorizationHeaderExample()
    ensures AuthorizationHeader("abc") == "Basic OmFiYw=="
  {
    var bytes := Utf8.Encode(":abc");
    assert bytes == [0x3A, 0x61, 0x62, 0x63];
    assert Base64.Encode(bytes) == "OmFiYw==";
  }
}
