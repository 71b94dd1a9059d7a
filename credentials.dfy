/**
 * Credential resolution: the token a request is forwarded with, taken from
 * its `Authorization` header or, failing that, from the process-wide
 * `GITHUB_TOKEN` setting, which is passed in rather than read from the
 * environment.
 */
module Credentials {
  import opened Wrappers
  import opened Json
  import opened PyStr

  /** The errors a request can end with, as the web framework reports them. */
  datatype Failure =
    /** an `HTTPException` raised with this status and detail */
    | HttpError(status: int, detail: Json)
    /** any other exception escaping a handler: the framework answers 500 */
    | UnhandledException

  const NoTokenDetail: string :=
    "GitHub token not provided via Authorization header or GITHUB_TOKEN env var"

  const Unauthorized: Failure := HttpError(401, JString(NoTokenDetail))

  /** Python truthiness of an optional string: present and non-empty. */
  predicate Given(s: Option<string>) {
    s.Some? && s.value != ""
  }

  /** The header has the form "<scheme> <credentials>" with scheme "bearer" in any case. */
  predicate IsBearerHeader(header: string) {
    var parts := Split(header);
    |parts| == 2 && Lower(parts[0]) == "bearer"
  }

  /**
   * `get_token`: the bearer credentials of a Bearer header, any other
   * non-empty header verbatim, else the fallback token, else 401.
   */
  function ResolveToken(authorization: Option<string>, fallback: Option<string>): (r: Result<string, Failure>)
    ensures r.Err? <==> !Given(authorization) && !Given(fallback)
    ensures r.Err? ==> r.error == Unauthorized
    ensures r.Ok? ==> r.value != ""
    ensures Given(authorization) && !IsBearerHeader(authorization.value) ==> r == Ok(authorization.value)
    ensures !Given(authorization) && Given(fallback) ==> r == Ok(fallback.value)
  {
    if Given(authorization) then
      var parts := Split(authorization.value);
      if |parts| == 2 && Lower(parts[0]) == "bearer" then Ok(parts[1])
      else Ok(authorization.value)
    else if Given(fallback) then Ok(fallback.value)
    else Err(Unauthorized)
  }

  // ---------------------------------------------------------------- lemmas

  /**
   * A Bearer header, with any whitespace around or between its two words and
   * the scheme in any case, yields exactly its credentials.
   */
  lemma BearerHeaderYieldsCredentials(lead: string, scheme: string, sep: string, credentials: string, trail: string, fallback: Option<string>)
    requires AllSpace(lead) && AllSpace(sep) && AllSpace(trail) && sep != []
    requires scheme != [] && NoSpace(scheme) && Lower(scheme) == "bearer"
    requires credentials != [] && NoSpace(credentials)
    ensures ResolveToken(Some(lead + scheme + sep + credentials + trail), fallback) == Ok(credentials)
  {
    SplitTwoWords(lead, scheme, sep, credentials, trail);
  }

  /** The canonical header "Bearer X" resolves to X. */
  lemma CanonicalBearer(credentials: string, fallback: Option<string>)
    requires credentials != [] && NoSpace(credentials)
    ensures ResolveToken(Some("Bearer " + credentials), fallback) == Ok(credentials)
  {
    assert NoSpace("Bearer") && AllSpace(" ");
    assert "Bearer " + credentials == [] + "Bearer" + " " + credentials + [];
    BearerHeaderYieldsCredentials([], "Bearer", " ", credentials, [], fallback);
  }

  /** A header that is a single whitespace-free word is the token itself. */
  lemma RawTokenVerbatim(token: string, fallback: Option<string>)
    requires token != [] && NoSpace(token)
    ensures ResolveToken(Some(token), fallback) == Ok(token)
  {
    SplitSingleWord(token);
  }

  /** "Bearer" with no credentials after it is passed on as the token "Bearer". */
  lemma SchemeAloneVerbatim(fallback: Option<string>)
    ensures ResolveToken(Some("Bearer"), fallback) == Ok("Bearer")
  {
    RawTokenVerbatim("Bearer", fallback);
  }

  /** A whitespace-only header is not empty: it is passed on unchanged. */
  lemma WhitespaceHeaderVerbatim(header: string, fallback: Option<string>)
    requires header != [] && AllSpace(header)
    ensures ResolveToken(Some(header), fallback) == Ok(header)
  {
    SplitEmptyIffAllSpace(header);
  }

  /**
   * A header that splits into three or more words, whatever whitespace
   * separates or surrounds them, is passed on unchanged, Bearer or not.
   */
  lemma ManyWordsVerbatim(header: string, fallback: Option<string>)
    requires |Split(header)| >= 3
    ensures ResolveToken(Some(header), fallback) == Ok(header)
  {
    SplitEmptyIffAllSpace(header);
    assert Given(Some(header));
    assert !IsBearerHeader(header);
  }

  /** In particular, three or more words joined by single spaces are passed on unchanged. */
  lemma SpacedWordsVerbatim(words: seq<string>, fallback: Option<string>)
    requires |words| >= 3
    requires forall i :: 0 <= i < |words| ==> words[i] != [] && NoSpace(words[i])
    ensures ResolveToken(Some(JoinSpaced(words)), fallback) == Ok(JoinSpaced(words))
  {
    SplitJoinSpaced(words);
    ManyWordsVerbatim(JoinSpaced(words), fallback);
  }

  /** Once a non-empty header is present the fallback token is never consulted. */
  lemma HeaderShadowsFallback(header: string, fallback1: Option<string>, fallback2: Option<string>)
    requires header != ""
    ensures ResolveToken(Some(header), fallback1) == ResolveToken(Some(header), fallback2)
    ensures ResolveToken(Some(header), fallback1).Ok?
  {
  }

  /** An absent and an empty header behave alike: the fallback decides. */
  lemma EmptyHeaderIsAbsent(fallback: Option<string>)
    ensures ResolveToken(Some(""), fallback) == ResolveToken(None, fallback)
    ensures Given(fallback) ==> ResolveToken(None, fallback) == Ok(fallback.value)
    ensures !Given(fallback) ==> ResolveToken(None, fallback) == Err(HttpError(401, JString(NoTokenDetail)))
  {
  }
}
