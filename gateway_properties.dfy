/**
 * What the handlers promise: the request each endpoint sends, the order and
 * guard of the two calls of branch creation, and that every call carries
 * the resolved credential to the GitHub API base.
 */
module GatewayProperties {
  import opened Wrappers
  import opened Json
  import opened PyStr
  import opened Credentials
  import opened Routes
  import opened Upstream
  import opened Gateway

  // ------------------------------------------------------ request translation

  /** The source's handler name, to say which handler an endpoint reaches. */
  function HandlerName(e: Endpoint): string {
    match e
    case ListBranches(_, _) => "list_branches"
    case CreateBranch(_, _, _) => "create_branch"
    case ListPrs(_, _, _) => "list_prs"
    case CreatePr(_, _, _) => "create_pr"
    case GetPr(_, _, _) => "get_pr"
    case ReviewPr(_, _, _, _) => "review_pr"
    case MergePr(_, _, _, _) => "merge_pr"
    case GetContents(_, _, _, _) => "get_contents"
  }

  /** The upstream path of a single-call endpoint names its resource, owner and repository. */
  lemma TranslateTargetsRoute(e: Endpoint)
    requires !e.CreateBranch? && FromRouter(e)
    ensures ParseRoute(Translate(e).path) == Some(RouteOf(e))
    ensures RouteOf(e).owner == e.owner && RouteOf(e).repo == e.repo
  {
    ParseRoutePath(RouteOf(e));
  }

  /**
   * No two handlers, and no two sets of path parameters, share an upstream
   * target: method and path determine the handler and the resource.
   */
  lemma TranslateTargetsDistinct(e1: Endpoint, e2: Endpoint)
    requires !e1.CreateBranch? && FromRouter(e1)
    requires !e2.CreateBranch? && FromRouter(e2)
    requires Translate(e1).verb == Translate(e2).verb && Translate(e1).path == Translate(e2).path
    ensures HandlerName(e1) == HandlerName(e2) && RouteOf(e1) == RouteOf(e2)
  {
    RoutePathInjective(RouteOf(e1), RouteOf(e2));
  }

  /** `list_prs` sends its state as the only query parameter, "open" when none was given. */
  lemma ListPrsState(owner: string, repo: string, state: Option<string>)
    ensures Translate(ListPrs(owner, repo, state)).params
         == Some(map["state" := if state.Some? then state.value else "open"])
    ensures Translate(ListPrs(owner, repo, None)).params == Some(map["state" := "open"])
    ensures Translate(ListPrs(owner, repo, state)).verb == GET
  {
  }

  /** `get_contents` sends `ref` only when it is given and non-empty; never an empty `ref`. */
  lemma ContentsRefParam(owner: string, repo: string, path: string, ref: Option<string>)
    ensures var params := Translate(GetContents(owner, repo, path, ref)).params;
      && (params.None? <==> ref.None? || ref.value == "")
      && (params.Some? ==> params.value == map["ref" := ref.value] && params.value["ref"] != "")
  {
  }

  /** `create_pr` forwards all five fields; unset optional ones as null. */
  lemma CreatePrBody(owner: string, repo: string, head: string, title: string)
    ensures Translate(CreatePr(owner, repo, CreatePrDefaults(head, title)))
         == UpstreamRequest(POST, "/repos/" + owner + "/" + repo + "/pulls", Some(JObject(map[
              "title" := JString(title), "head" := JString(head), "base" := JString("main"),
              "body" := JNull, "draft" := JBool(false)])), None)
  {
  }

  /** `review_pr` never sends a null body: a missing (or empty) one becomes "". */
  lemma ReviewBodyNeverNull(owner: string, repo: string, n: int, p: ReviewPrPayload)
    ensures var body := Translate(ReviewPr(owner, repo, n, p)).body;
      && body.Some? && body.value.JObject? && "body" in body.value.fields
      && body.value.fields["body"] == JString(if p.body.Some? then p.body.value else "")
    ensures Translate(ReviewPr(owner, repo, n, ReviewPrDefaults)).body
         == Some(JObject(map["body" := JString(""), "event" := JString("COMMENT")]))
  {
  }

  /** The empty merge payload asks for a plain merge with no title or message, via PUT. */
  lemma MergeDefaults(owner: string, repo: string, n: int)
    ensures Translate(MergePr(owner, repo, n, MergePrDefaults))
         == UpstreamRequest(PUT, "/repos/" + owner + "/" + repo + "/pulls/" + IntToString(n) + "/merge",
              Some(JObject(map["commit_title" := JNull, "commit_message" := JNull,
                               "merge_method" := JString("merge")])), None)
  {
  }

  // -------------------------------------------------------- branch creation

  /** The first call always reads the base branch's ref. */
  lemma CreateBranchFirstCall(upstream: Upstream, owner: string, repo: string, p: CreateBranchPayload, token: string)
    ensures var c := CreateBranchSteps(upstream, owner, repo, p, token).calls[0];
      && c.verb == GET && c.body.None? && c.params.None?
      && c.url == ApiBase + RoutePath(BranchRef(owner, repo, Formatted(p.baseBranch)))
      && c.headers["Authorization"] == "Bearer " + token
  {
  }

  /** A payload naming only the new branch branches off "main". */
  lemma CreateBranchDefaultBase(upstream: Upstream, owner: string, repo: string, newBranch: string, token: string)
    ensures CreateBranchSteps(upstream, owner, repo, CreateBranchDefaults(newBranch), token).calls[0].url
         == ApiBase + RoutePath(BranchRef(owner, repo, "main"))
  {
    CreateBranchFirstCall(upstream, owner, repo, CreateBranchDefaults(newBranch), token);
  }

  /**
   * The new ref is created only after the base read succeeded with a truthy
   * `object.sha`; it is created from that sha, with the same credentials, and
   * its result is the handler's result unchanged.
   */
  lemma CreateBranchSecondCall(upstream: Upstream, owner: string, repo: string, p: CreateBranchPayload, token: string)
    ensures var o := CreateBranchSteps(upstream, owner, repo, p, token);
      var read := Classify(upstream(o.calls[0]));
      |o.calls| == 2 <==> read.Ok? && LookupSha(read.value).Sha?
    ensures var o := CreateBranchSteps(upstream, owner, repo, p, token);
      var resp := upstream(o.calls[0]);
      |o.calls| == 2 <==>
        && resp.status < 400 && resp.json.Some? && resp.json.value.JObject?
        && "object" in resp.json.value.fields && resp.json.value.fields["object"].JObject?
        && "sha" in resp.json.value.fields["object"].fields
        && Truthy(resp.json.value.fields["object"].fields["sha"])
    ensures var o := CreateBranchSteps(upstream, owner, repo, p, token);
      var read := Classify(upstream(o.calls[0]));
      |o.calls| == 2 ==>
        var sha := LookupSha(read.value).value;
        && Truthy(sha)
        && read.value.fields["object"].fields["sha"] == sha
        && o.calls[1].verb == POST
        && o.calls[1].url == ApiBase + RoutePath(Refs(owner, repo))
        && o.calls[1].body == Some(JObject(map["ref" := JString("refs/heads/" + p.newBranch), "sha" := sha]))
        && o.calls[1].headers == o.calls[0].headers
        && o.result == Classify(upstream(o.calls[1]))
  {
  }

  /** When the base read fails, that error is the result and nothing else is called. */
  lemma CreateBranchReadFailure(upstream: Upstream, owner: string, repo: string, p: CreateBranchPayload, token: string)
    requires upstream(BuildCall(BaseRefRequest(owner, repo, p), token)).status >= 400
    ensures var o := CreateBranchSteps(upstream, owner, repo, p, token);
      && |o.calls| == 1
      && o.result == Err(HttpError(upstream(o.calls[0]).status, ErrorDetail(upstream(o.calls[0]))))
  {
  }

  /** A base ref without a usable sha ends in the fixed 500 error, with no second call. */
  lemma CreateBranchNoSha(upstream: Upstream, owner: string, repo: string, p: CreateBranchPayload, token: string, baseRef: map<string, Json>)
    requires var resp := upstream(BuildCall(BaseRefRequest(owner, repo, p), token));
      resp.status < 400 && resp.json == Some(JObject(baseRef))
    requires "object" !in baseRef
      || (baseRef["object"].JObject? && ("sha" !in baseRef["object"].fields || !Truthy(baseRef["object"].fields["sha"])))
    ensures var o := CreateBranchSteps(upstream, owner, repo, p, token);
      |o.calls| == 1 && o.result == Err(HttpError(500, JString("Could not resolve base branch SHA")))
  {
  }

  /** A successful read whose body or "object" is not a dict crashes the handler after one call. */
  lemma CreateBranchNotADict(upstream: Upstream, owner: string, repo: string, p: CreateBranchPayload, token: string)
    requires var resp := upstream(BuildCall(BaseRefRequest(owner, repo, p), token));
      && resp.status < 400 && resp.json.Some?
      && (|| !resp.json.value.JObject?
          || ("object" in resp.json.value.fields && !resp.json.value.fields["object"].JObject?))
    ensures var o := CreateBranchSteps(upstream, owner, repo, p, token);
      |o.calls| == 1 && o.result == Err(UnhandledException)
  {
  }

  // ------------------------------------------------------------------ handler

  /** With neither a header nor a fallback token, every endpoint answers 401 without calling out. */
  lemma HandleWithoutCredentials(e: Endpoint, authorization: Option<string>, fallback: Option<string>, upstream: Upstream)
    requires authorization.None? || authorization.value == ""
    requires fallback.None? || fallback.value == ""
    ensures Handle(e, authorization, fallback, upstream)
         == Outcome(Err(HttpError(401, JString(NoTokenDetail))), [])
  {
  }

  /** A single-call endpoint makes exactly its translated call and returns its classified response. */
  lemma HandleSingleCall(e: Endpoint, authorization: Option<string>, fallback: Option<string>, upstream: Upstream)
    requires !e.CreateBranch?
    requires ResolveToken(authorization, fallback).Ok?
    ensures var token := ResolveToken(authorization, fallback).value;
      Handle(e, authorization, fallback, upstream)
        == Outcome(GhRequest(upstream, Translate(e), token), [BuildCall(Translate(e), token)])
  {
  }

  /** An upstream 404 with a JSON body makes a single-call handler raise 404 with that body as its detail. */
  lemma HandleNotFound(e: Endpoint, authorization: Option<string>, fallback: Option<string>, upstream: Upstream, body: Json)
    requires !e.CreateBranch?
    requires ResolveToken(authorization, fallback).Ok?
    requires var resp := upstream(BuildCall(Translate(e), ResolveToken(authorization, fallback).value));
      resp.status == 404 && resp.json == Some(body)
    ensures Handle(e, authorization, fallback, upstream).result == Err(HttpError(404, body))
  {
  }

  /** What every call of `Handle` has in common. */
  predicate CarriesToken(c: OutboundCall, token: string, e: Endpoint) {
    && c.headers == map["Authorization" := "Bearer " + token, "Accept" := AcceptV3]
    && |c.url| >= |ApiBase| && c.url[..|ApiBase|] == ApiBase
    && var route := ParseRoute(c.url[|ApiBase|..]);
       route.Some? && route.value.owner == e.owner && route.value.repo == e.repo
  }

  /** Both calls of branch creation carry the token to a resource of the requested repository. */
  lemma CreateBranchCallsCarryToken(e: Endpoint, token: string, upstream: Upstream)
    requires e.CreateBranch? && FromRouter(e)
    ensures var o := CreateBranchSteps(upstream, e.owner, e.repo, e.branchPayload, token);
      forall c :: c in o.calls ==> CarriesToken(c, token, e)
  {
    var o := CreateBranchSteps(upstream, e.owner, e.repo, e.branchPayload, token);
    ParseRoutePath(BranchRef(e.owner, e.repo, Formatted(e.branchPayload.baseBranch)));
    assert CarriesToken(o.calls[0], token, e);
    if |o.calls| == 2 {
      CreateBranchSecondCall(upstream, e.owner, e.repo, e.branchPayload, token);
      ParseRoutePath(Refs(e.owner, e.repo));
      assert CarriesToken(o.calls[1], token, e);
    }
  }

  /**
   * Every upstream call goes to the API base, to a resource of the requested
   * repository, with the resolved token as Bearer credentials and the v3
   * media type, whichever channel supplied the token.
   */
  lemma HandleCallsCarryToken(e: Endpoint, authorization: Option<string>, fallback: Option<string>, upstream: Upstream)
    requires FromRouter(e)
    requires ResolveToken(authorization, fallback).Ok?
    ensures var token := ResolveToken(authorization, fallback).value;
      forall c :: c in Handle(e, authorization, fallback, upstream).calls ==> CarriesToken(c, token, e)
  {
    var token := ResolveToken(authorization, fallback).value;
    var o := Handle(e, authorization, fallback, upstream);
    if e.CreateBranch? {
      CreateBranchCallsCarryToken(e, token, upstream);
    } else {
      ParseRoutePath(RouteOf(e));
      assert CarriesToken(o.calls[0], token, e);
    }
  }
}
