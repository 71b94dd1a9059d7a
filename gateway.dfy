/**
 * The endpoint handlers: each inbound request becomes one upstream call,
 * except branch creation, which reads the base branch's commit first and
 * creates the new ref from it. A handler's outcome records its result and
 * the calls it made, in order.
 */
module Gateway {
  import opened Wrappers
  import opened Json
  import opened Credentials
  import opened Routes
  import opened Upstream

  // ---------------------------------------------------------------- payloads

  datatype CreateBranchPayload = CreateBranchPayload(newBranch: string, baseBranch: Option<string>)

  datatype CreatePrPayload = CreatePrPayload(
    head: string,
    base: string,
    title: string,
    body: Option<string>,
    draft: Option<bool>)

  datatype ReviewPrPayload = ReviewPrPayload(body: Option<string>, event: Option<string>)

  datatype MergePrPayload = MergePrPayload(
    commitTitle: Option<string>,
    commitMessage: Option<string>,
    mergeMethod: Option<string>)

  /** The payload a body naming only the new branch decodes to. */
  function CreateBranchDefaults(newBranch: string): CreateBranchPayload {
    CreateBranchPayload(newBranch, Some("main"))
  }

  /** The payload a body naming only head and title decodes to. */
  function CreatePrDefaults(head: string, title: string): CreatePrPayload {
    CreatePrPayload(head, "main", title, None, Some(false))
  }

  /** The payloads the empty body `{}` decodes to. */
  const ReviewPrDefaults: ReviewPrPayload := ReviewPrPayload(None, Some("COMMENT"))
  const MergePrDefaults: MergePrPayload := MergePrPayload(None, None, Some("merge"))

  /** `None` becomes JSON null. */
  function StringOrNull(s: Option<string>): Json {
    match s
    case Some(v) => JString(v)
    case None => JNull
  }

  function BoolOrNull(b: Option<bool>): Json {
    match b
    case Some(v) => JBool(v)
    case None => JNull
  }

  /** How an f-string formats an optional string: `None` prints as "None". */
  function Formatted(s: Option<string>): string {
    match s
    case Some(v) => v
    case None => "None"
  }

  // ---------------------------------------------------------------- endpoints

  /** An inbound request that passed routing and payload validation. */
  datatype Endpoint =
    | ListBranches(owner: string, repo: string)
    | CreateBranch(owner: string, repo: string, branchPayload: CreateBranchPayload)
    | ListPrs(owner: string, repo: string, state: Option<string>)
    | CreatePr(owner: string, repo: string, prPayload: CreatePrPayload)
    | GetPr(owner: string, repo: string, prNumber: int)
    | ReviewPr(owner: string, repo: string, prNumber: int, reviewPayload: ReviewPrPayload)
    | MergePr(owner: string, repo: string, prNumber: int, mergePayload: MergePrPayload)
    | GetContents(owner: string, repo: string, filePath: string, ref: Option<string>)

  /** Owner and repository came from `{owner}` and `{repo}` path parameters. */
  predicate FromRouter(e: Endpoint) {
    IsSegment(e.owner) && IsSegment(e.repo)
  }

  const DefaultPrState: string := "open"

  /** The upstream resource a single-call endpoint addresses. */
  function RouteOf(e: Endpoint): (r: Route)
    requires !e.CreateBranch?
    ensures r.owner == e.owner && r.repo == e.repo
  {
    match e
    case ListBranches(owner, repo) => Branches(owner, repo)
    case ListPrs(owner, repo, _) => Pulls(owner, repo)
    case CreatePr(owner, repo, _) => Pulls(owner, repo)
    case GetPr(owner, repo, n) => Pull(owner, repo, n)
    case ReviewPr(owner, repo, n, _) => PullReviews(owner, repo, n)
    case MergePr(owner, repo, n, _) => PullMerge(owner, repo, n)
    case GetContents(owner, repo, path, _) => Contents(owner, repo, path)
  }

  /** The upstream request of a single-call endpoint. */
  function Translate(e: Endpoint): UpstreamRequest
    requires !e.CreateBranch?
  {
    var path := RoutePath(RouteOf(e));
    match e
    case ListBranches(_, _) => UpstreamRequest(GET, path, None, None)
    case ListPrs(_, _, state) =>
      UpstreamRequest(GET, path, None, Some(map["state" := state.GetOr(DefaultPrState)]))
    case CreatePr(_, _, p) =>
      UpstreamRequest(POST, path, Some(JObject(map[
        "title" := JString(p.title),
        "head" := JString(p.head),
        "base" := JString(p.base),
        "body" := StringOrNull(p.body),
        "draft" := BoolOrNull(p.draft)])), None)
    case GetPr(_, _, _) => UpstreamRequest(GET, path, None, None)
    case ReviewPr(_, _, _, p) =>
      var text := if Given(p.body) then p.body.value else "";
      UpstreamRequest(POST, path, Some(JObject(map[
        "body" := JString(text),
        "event" := StringOrNull(p.event)])), None)
    case MergePr(_, _, _, p) =>
      UpstreamRequest(PUT, path, Some(JObject(map[
        "commit_title" := StringOrNull(p.commitTitle),
        "commit_message" := StringOrNull(p.commitMessage),
        "merge_method" := StringOrNull(p.mergeMethod)])), None)
    case GetContents(_, _, _, ref) =>
      UpstreamRequest(GET, path, None, if Given(ref) then Some(map["ref" := ref.value]) else None)
  }

  // ---------------------------------------------------------- branch creation

  /** A handler's result and the upstream calls it made, in order. */
  datatype Outcome = Outcome(result: Result<Json, Failure>, calls: seq<OutboundCall>)

  const NoShaDetail: string := "Could not resolve base branch SHA"

  /** What `base_ref.get("object", {}).get("sha")` followed by `if not base_sha` decides. */
  datatype ShaLookup =
    | Sha(value: Json)
    /** missing or falsy: the handler raises the 500 error */
    | NoSha
    /** the body or its "object" is not a dict: `.get` raises AttributeError */
    | NotADict

  function LookupSha(baseRef: Json): (r: ShaLookup)
    ensures r.Sha? <==>
      && baseRef.JObject? && "object" in baseRef.fields
      && baseRef.fields["object"].JObject? && "sha" in baseRef.fields["object"].fields
      && Truthy(baseRef.fields["object"].fields["sha"])
    ensures r.Sha? ==>
      && baseRef.JObject? && "object" in baseRef.fields
      && baseRef.fields["object"].JObject? && "sha" in baseRef.fields["object"].fields
      && baseRef.fields["object"].fields["sha"] == r.value
    ensures r.NotADict? <==> !baseRef.JObject? || ("object" in baseRef.fields && !baseRef.fields["object"].JObject?)
  {
    if !baseRef.JObject? then NotADict
    else if "object" !in baseRef.fields then NoSha
    else
      var obj := baseRef.fields["object"];
      if !obj.JObject? then NotADict
      else if "sha" in obj.fields && Truthy(obj.fields["sha"]) then Sha(obj.fields["sha"])
      else NoSha
  }

  function BaseRefRequest(owner: string, repo: string, p: CreateBranchPayload): UpstreamRequest {
    UpstreamRequest(GET, RoutePath(BranchRef(owner, repo, Formatted(p.baseBranch))), None, None)
  }

  function NewRefBody(newBranch: string, sha: Json): Json {
    JObject(map["ref" := JString("refs/heads/" + newBranch), "sha" := sha])
  }

  function NewRefRequest(owner: string, repo: string, newBranch: string, sha: Json): UpstreamRequest {
    UpstreamRequest(POST, RoutePath(Refs(owner, repo)), Some(NewRefBody(newBranch, sha)), None)
  }

  /** `create_branch`: read the base ref, then create the new ref from its commit. */
  function CreateBranchSteps(upstream: Upstream, owner: string, repo: string, p: CreateBranchPayload, token: string): (o: Outcome)
    ensures 1 <= |o.calls| <= 2
    ensures o.calls[0] == BuildCall(BaseRefRequest(owner, repo, p), token)
  {
    var first := BuildCall(BaseRefRequest(owner, repo, p), token);
    match Classify(upstream(first))
    case Err(f) => Outcome(Err(f), [first])
    case Ok(baseRef) =>
      match LookupSha(baseRef)
      case NotADict => Outcome(Err(UnhandledException), [first])
      case NoSha => Outcome(Err(HttpError(500, JString(NoShaDetail))), [first])
      case Sha(sha) =>
        var second := BuildCall(NewRefRequest(owner, repo, p.newBranch, sha), token);
        Outcome(Classify(upstream(second)), [first, second])
  }

  // ------------------------------------------------------------------ handler

  /** Resolve the credential, then run the endpoint's call or calls. */
  function Handle(e: Endpoint, authorization: Option<string>, fallback: Option<string>, upstream: Upstream): (o: Outcome)
    ensures |o.calls| <= 2
    ensures |o.calls| == 2 ==> e.CreateBranch?
    ensures o.calls == [] <==> ResolveToken(authorization, fallback).Err?
  {
    match ResolveToken(authorization, fallback)
    case Err(f) => Outcome(Err(f), [])
    case Ok(token) =>
      if e.CreateBranch? then CreateBranchSteps(upstream, e.owner, e.repo, e.branchPayload, token)
      else
        var call := BuildCall(Translate(e), token);
        Outcome(Classify(upstream(call)), [call])
  }
}
