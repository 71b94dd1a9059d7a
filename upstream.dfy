/**
 * `gh_request`, the one place that talks to the GitHub API: it turns a
 * request into an outbound call (absolute URL, authorization and media-type
 * headers) and classifies the response into a result or an error. The HTTP
 * exchange itself is a parameter: `Upstream` maps each outbound call to the
 * response it gets.
 */
module Upstream {
  import opened Wrappers
  import opened Json
  import opened Credentials

  const ApiBase: string := "https://api.github.com"
  const AcceptV3: string := "application/vnd.github.v3+json"

  datatype Method = GET | POST | PUT

  /** What a handler asks for: the request before credentials are attached. */
  datatype UpstreamRequest = UpstreamRequest(
    verb: Method,
    path: string,
    body: Option<Json>,
    params: Option<map<string, string>>)

  /** What goes over the wire. */
  datatype OutboundCall = OutboundCall(
    verb: Method,
    url: string,
    headers: map<string, string>,
    body: Option<Json>,
    params: Option<map<string, string>>)

  /** A response: its status, its body decoded as JSON (None when that fails), and its raw text. */
  datatype UpstreamResponse = UpstreamResponse(status: int, json: Option<Json>, text: string)

  type Upstream = OutboundCall -> UpstreamResponse

  const OkMarker: Json := JObject(map["status" := JString("ok")])

  /** The call sent for a request: base URL plus path, the token as Bearer credentials, the v3 media type. */
  function BuildCall(req: UpstreamRequest, token: string): (c: OutboundCall)
    ensures |c.url| >= |ApiBase| && c.url[..|ApiBase|] == ApiBase && c.url[|ApiBase|..] == req.path
    ensures c.headers.Keys == {"Authorization", "Accept"}
    ensures c.headers["Authorization"] == "Bearer " + token && c.headers["Accept"] == AcceptV3
    ensures c.verb == req.verb && c.body == req.body && c.params == req.params
  {
    OutboundCall(
      req.verb,
      ApiBase + req.path,
      map["Authorization" := "Bearer " + token, "Accept" := AcceptV3],
      req.body,
      req.params)
  }

  /** The error detail for a failed call: the decoded body, or the raw text under "message". */
  function ErrorDetail(resp: UpstreamResponse): Json {
    match resp.json
    case Some(j) => j
    case None => JObject(map["message" := JString(resp.text)])
  }

  /**
   * Status 400 and above is an error with the same status; anything below is
   * success, with the decoded body or the `{"status": "ok"}` marker.
   */
  function Classify(resp: UpstreamResponse): (r: Result<Json, Failure>)
    ensures r.Err? <==> resp.status >= 400
    ensures r.Err? ==> r.error.HttpError? && r.error.status == resp.status
    ensures r.Ok? && resp.json.Some? ==> r.value == resp.json.value
    ensures r.Err? && resp.json.Some? ==> r.error.detail == resp.json.value
  {
    if resp.status >= 400 then Err(HttpError(resp.status, ErrorDetail(resp)))
    else Ok(resp.json.GetOr(OkMarker))
  }

  /** `gh_request`: one call, its response classified. */
  function GhRequest(upstream: Upstream, req: UpstreamRequest, token: string): Result<Json, Failure> {
    Classify(upstream(BuildCall(req, token)))
  }

  // ---------------------------------------------------------------- lemmas

  /** Failures carry the upstream status; an undecodable body keeps its text under "message". */
  lemma ClassifyError(resp: UpstreamResponse)
    requires resp.status >= 400
    ensures resp.json.None? ==> Classify(resp) == Err(HttpError(resp.status, JObject(map["message" := JString(resp.text)])))
    ensures resp.json.Some? ==> Classify(resp) == Err(HttpError(resp.status, resp.json.value))
  {
  }

  /** Below 400 nothing is an error, even an empty or undecodable body. */
  lemma ClassifySuccess(resp: UpstreamResponse)
    requires resp.status < 400
    ensures resp.json.None? ==> Classify(resp) == Ok(JObject(map["status" := JString("ok")]))
    ensures resp.json.Some? ==> Classify(resp) == Ok(resp.json.value)
  {
  }

  /**
   * The call that reaches the upstream depends only on the token, not on the
   * channel that supplied it: a canonical Bearer header, the same token sent
   * raw, and the same token as fallback give identical calls.
   */
  lemma SameCallWhicheverChannel(req: UpstreamRequest, token: string, fallback: Option<string>)
    requires token != [] && PyStr.NoSpace(token)
    ensures ResolveToken(Some("Bearer " + token), fallback).Ok?
    ensures ResolveToken(Some(token), fallback).Ok?
    ensures ResolveToken(None, Some(token)).Ok?
    ensures BuildCall(req, ResolveToken(Some("Bearer " + token), fallback).value)
         == BuildCall(req, ResolveToken(Some(token), fallback).value)
         == BuildCall(req, ResolveToken(None, Some(token)).value)
  {
    CanonicalBearer(token, fallback);
    RawTokenVerbatim(token, fallback);
  }

  /** For a canonical Bearer header the forwarded Authorization header is the one received. */
  lemma CanonicalHeaderForwardedUnchanged(req: UpstreamRequest, token: string, fallback: Option<string>)
    requires token != [] && PyStr.NoSpace(token)
    ensures ResolveToken(Some("Bearer " + token), fallback).Ok?
    ensures BuildCall(req, ResolveToken(Some("Bearer " + token), fallback).value).headers["Authorization"]
         == "Bearer " + token
  {
    CanonicalBearer(token, fallback);
  }
}
