/**
 * The end-to-end branch-creation scenario, stated against a test double for
 * the upstream: two calls in order, the second built from the first's sha.
 */
module Scenarios {
  import opened Wrappers
  import opened Json
  import opened PyStr
  import opened Credentials
  import opened Upstream
  import opened Routes
  import opened Gateway

  const ScenarioSha: Json := JString("abc123")
  const ScenarioBaseRef: Json := JObject(map["object" := JObject(map["sha" := ScenarioSha])])
  const ScenarioPayload: CreateBranchPayload := CreateBranchPayload("feature-x", Some("main"))

  /** A test double: reads answer with sha abc123, writes answer 201 with `created`. */
  function ScenarioUpstream(created: Json): Upstream {
    (c: OutboundCall) =>
      if c.verb == GET then UpstreamResponse(200, Some(ScenarioBaseRef), "")
      else UpstreamResponse(201, Some(created), "")
  }

  lemma ScenarioToken()
    ensures ResolveToken(Some("Bearer t0k"), None) == Ok("t0k")
  {
    assert NoSpace("t0k");
    CanonicalBearer("t0k", None);
    assert "Bearer " + "t0k" == "Bearer t0k";
  }

  lemma ScenarioCalls(created: Json)
    ensures var c0 := BuildCall(BaseRefRequest("acme", "widget", ScenarioPayload), "t0k");
      var c1 := BuildCall(NewRefRequest("acme", "widget", "feature-x", ScenarioSha), "t0k");
      CreateBranchSteps(ScenarioUpstream(created), "acme", "widget", ScenarioPayload, "t0k")
        == Outcome(Ok(created), [c0, c1])
  {
    var upstream := ScenarioUpstream(created);
    var c0 := BuildCall(BaseRefRequest("acme", "widget", ScenarioPayload), "t0k");
    var c1 := BuildCall(NewRefRequest("acme", "widget", "feature-x", ScenarioSha), "t0k");
    assert upstream(c0) == UpstreamResponse(200, Some(ScenarioBaseRef), "");
    assert Classify(upstream(c0)) == Ok(ScenarioBaseRef);
    assert LookupSha(ScenarioBaseRef) == Sha(ScenarioSha);
    assert upstream(c1) == UpstreamResponse(201, Some(created), "");
  }

  lemma ScenarioReadUrl()
    ensures ApiBase + RoutePath(BranchRef("acme", "widget", "main"))
         == "https://api.github.com/repos/acme/widget/git/ref/heads/main"
  {
  }

  lemma ScenarioWriteUrl()
    ensures ApiBase + RoutePath(Refs("acme", "widget"))
         == "https://api.github.com/repos/acme/widget/git/refs"
  {
  }

  lemma ScenarioReadCall()
    ensures var c0 := BuildCall(BaseRefRequest("acme", "widget", ScenarioPayload), "t0k");
      c0.verb == GET && c0.url == "https://api.github.com/repos/acme/widget/git/ref/heads/main"
  {
    var c0 := BuildCall(BaseRefRequest("acme", "widget", ScenarioPayload), "t0k");
    assert Formatted(ScenarioPayload.baseBranch) == "main";
    assert c0.url == ApiBase + RoutePath(BranchRef("acme", "widget", "main"));
    ScenarioReadUrl();
  }

  lemma ScenarioWriteCall()
    ensures var c1 := BuildCall(NewRefRequest("acme", "widget", "feature-x", ScenarioSha), "t0k");
      && c1.verb == POST && c1.url == "https://api.github.com/repos/acme/widget/git/refs"
      && c1.body == Some(JObject(map["ref" := JString("refs/heads/feature-x"), "sha" := JString("abc123")]))
      && c1.headers["Authorization"] == "Bearer t0k"
  {
    var c1 := BuildCall(NewRefRequest("acme", "widget", "feature-x", ScenarioSha), "t0k");
    assert c1.url == ApiBase + RoutePath(Refs("acme", "widget"));
    ScenarioWriteUrl();
    assert "refs/heads/" + "feature-x" == "refs/heads/feature-x";
    assert "Bearer " + "t0k" == "Bearer t0k";
  }

  /**
   * `POST /repos/acme/widget/branches {"new_branch": "feature-x", "base_branch": "main"}`
   * with header "Bearer t0k": the base ref is read, the new ref is created
   * from sha abc123, and the caller receives the creation's body.
   */
  lemma BranchScenario(created: Json)
    ensures var o := Handle(CreateBranch("acme", "widget", ScenarioPayload), Some("Bearer t0k"), None,
                            ScenarioUpstream(created));
      && o.result == Ok(created)
      && |o.calls| == 2
      && o.calls[0].verb == GET
      && o.calls[0].url == "https://api.github.com/repos/acme/widget/git/ref/heads/main"
      && o.calls[1].verb == POST
      && o.calls[1].url == "https://api.github.com/repos/acme/widget/git/refs"
      && o.calls[1].body == Some(JObject(map["ref" := JString("refs/heads/feature-x"), "sha" := JString("abc123")]))
      && o.calls[1].headers["Authorization"] == "Bearer t0k"
  {
    ScenarioToken();
    ScenarioCalls(created);
    ScenarioReadCall();
    ScenarioWriteCall();
  }
}
