# GitHub gateway: credential resolution and request translation

A model of the local GitHub "MCP" gateway (`githubmcp.py`). This HTTP service
forwards a handful of repository operations to the GitHub REST API. The
operations are: list and create branches; list, create, read, review and merge
pull requests; and read file contents. The model covers the gateway's
deterministic logic as pure functions:

- **Credential resolution** (`Credentials`). A `Bearer X` header yields `X`,
  with the scheme matched in any case. Any other non-empty header is used
  verbatim. Otherwise the fallback token is used, and if there is none the
  result is 401. Python's `str.split()` and the `lower()` comparison are
  modelled exactly in `PyStr`.
- **The upstream caller** (`Upstream`). `BuildCall` attaches the base URL and
  the `Authorization`/`Accept` headers. `Classify` maps a response (status,
  decoded JSON body or none, raw text) to a result or an error. The network
  is a parameter, `Upstream = OutboundCall -> UpstreamResponse`.
- **Upstream paths** (`Routes`). These are the GitHub resources the handlers
  address. A parser reads a path back, and the round trip is proved, so no
  two resources share a path.
- **Handlers** (`Gateway`). `Gateway` holds the payload defaults, the request
  each single-call endpoint sends (`Translate`), and the two-step branch
  creation (`CreateBranchSteps`). `Handle` resolves the credential and runs
  the endpoint. Each handler returns an `Outcome`: its result plus the trace
  of upstream calls it made, in order.
- **Properties** (`GatewayProperties`, `Scenarios`). These modules prove the
  request-builder facts, the guard and data flow of branch creation, and that
  every call carries the resolved token. `Scenarios` also contains the
  end-to-end branch scenario, stated against a canned upstream.

Errors are `Failure`. An `HttpError(status, detail)` is an `HTTPException`
raised by the code. `UnhandledException` is any other exception that escapes
a handler, which the framework answers with a plain 500.

Where the code and a plain reading of its intent differ, the model follows
the code:
- `create_branch` raises the fixed 500 error "Could not resolve base branch
  SHA" only when `object` is absent or its `sha` is missing or falsy. If the
  base-ref body is not a dict, or its `object` is present but not a dict, the
  `.get` call raises `AttributeError` and the result is `UnhandledException`.
- A `sha` that is present but falsy (`""`, `0`, `false`, `null`, empty list
  or dict) counts as missing. A truthy `sha` of any JSON type is forwarded
  as-is.
- An explicit `"base_branch": null` is formatted by the f-string as `None`, so
  the first call reads `git/ref/heads/None`.
- `get_contents` omits `ref` when it is absent or empty. `review_pr` sends
  `""` when `body` is absent or empty.
- On success the handler returns only the body, and the caller sees the
  framework's 200, not the upstream status (201 for a created ref).
- A whitespace-only header, `Bearer` on its own, and headers of three or
  more words are all non-empty, so each is passed on verbatim.

## Model

| member | source | states |
|---|---|---|
| PyStr.Split | githubmcp.py:27 | every part of `s.split()` is non-empty and free of Python whitespace |
| PyStr.SplitLeadingSpace | githubmcp.py:27 | leading whitespace never changes the split |
| PyStr.SplitEmptyIffAllSpace | githubmcp.py:27 | a string splits into no parts exactly when it is all whitespace |
| PyStr.SplitTwoWords | githubmcp.py:27-28 | two words with any whitespace around or between them split into exactly those two words |
| PyStr.SplitJoinSpaced | githubmcp.py:27 | split inverts `" ".join` on non-empty whitespace-free words |
| PyStr.LowerIsBearer | githubmcp.py:28 | `scheme.lower() == "bearer"` holds exactly for six-character schemes whose every letter is the matching letter of `bearer` in either case |
| Credentials.ResolveToken | githubmcp.py:23-34 | the result is 401 (fixed detail) iff neither header nor fallback is non-empty; a resolved token is never empty; a non-Bearer non-empty header is returned verbatim; with no header, the fallback is returned |
| Credentials.BearerHeaderYieldsCredentials | githubmcp.py:27-29 | a Bearer header with the scheme in any case and any surrounding or separating whitespace yields exactly its credentials, whatever the fallback |
| Credentials.CanonicalBearer | githubmcp.py:27-29 | `"Bearer " + X` resolves to X for any non-empty whitespace-free X |
| Credentials.RawTokenVerbatim | githubmcp.py:25-30 | a single-word header is itself the token |
| Credentials.SchemeAloneVerbatim | githubmcp.py:28-30 | the header `Bearer` on its own is passed on as the token `Bearer` |
| Credentials.WhitespaceHeaderVerbatim | githubmcp.py:25-30 | a whitespace-only header is passed on unchanged |
| Credentials.ManyWordsVerbatim | githubmcp.py:27-30 | a header that splits into three or more words, whatever whitespace separates or surrounds them, is passed on unchanged |
| Credentials.SpacedWordsVerbatim | githubmcp.py:27-30 | three or more whitespace-free words joined by single spaces are passed on unchanged |
| Credentials.HeaderShadowsFallback | githubmcp.py:25-31 | with a non-empty header the result succeeds and does not depend on the fallback |
| Credentials.EmptyHeaderIsAbsent | githubmcp.py:25-34 | an empty header behaves like no header; then a non-empty fallback is the token, otherwise 401 with the fixed detail |
| Upstream.BuildCall | githubmcp.py:39-40 | the URL is the API base followed by the path; the headers are exactly `Authorization: Bearer <token>` and the v3 `Accept`; method, body and parameters pass through |
| Upstream.Classify | githubmcp.py:42-52 | the result is an error iff status >= 400; an error carries that status and the decoded body as detail; a success carries the decoded body |
| Upstream.ClassifyError | githubmcp.py:42-48 | on status >= 400 the detail is the decoded body, or `{"message": text}` when it does not decode |
| Upstream.ClassifySuccess | githubmcp.py:49-52 | below 400 the result is the decoded body, or `{"status": "ok"}`; never an error |
| Upstream.SameCallWhicheverChannel | githubmcp.py:23-40 | the same token sent as `Bearer X`, raw, or as fallback produces identical upstream calls |
| Upstream.CanonicalHeaderForwardedUnchanged | githubmcp.py:27-40 | for a canonical `Bearer X` header, the forwarded Authorization header equals the received one |
| Routes.IntToString | githubmcp.py:137 | the decimal form of a PR number is non-empty and contains no `/` |
| Routes.ParseIntToString | githubmcp.py:137 | the decimal form of a PR number reads back as that number |
| Routes.ParseRoutePath | githubmcp.py:99-163 | every upstream path the handlers build parses back to its resource, when owner and repo are path segments |
| Routes.RoutePathInjective | githubmcp.py:99-163 | two resources with the same upstream path are the same resource |
| Gateway.RouteOf | githubmcp.py:99-163 | each single-call endpoint addresses a resource of the requested owner and repository |
| Gateway.LookupSha | githubmcp.py:112-113 | a sha is found exactly when the body is a dict whose `object` is a dict holding a truthy `sha`, and it is that `sha`; a crash happens exactly when the body, or a present `object`, is not a dict |
| Gateway.CreateBranchSteps | githubmcp.py:107-118 | branch creation makes one or two calls, and the first is always the base-ref read |
| Gateway.Handle | githubmcp.py:99-163 | at most two calls; two only for branch creation; no call at all exactly when credential resolution fails |
| GatewayProperties.TranslateTargetsRoute | githubmcp.py:99-163 | a single-call endpoint's upstream path parses back to its resource, owner and repository |
| GatewayProperties.TranslateTargetsDistinct | githubmcp.py:99-163 | two single-call endpoints with the same upstream method and path are the same handler on the same resource |
| GatewayProperties.ListPrsState | githubmcp.py:123-125 | `list_prs` sends a GET whose only query parameter is `state`, which is "open" by default |
| GatewayProperties.ContentsRefParam | githubmcp.py:162 | `ref` is sent iff it is given and non-empty, as `{"ref": ref}`; never as an empty string |
| GatewayProperties.CreatePrBody | githubmcp.py:130-132 | with the payload defaults, `create_pr` POSTs title, head, base "main", body null and draft false |
| GatewayProperties.ReviewBodyNeverNull | githubmcp.py:144 | the review body is the given text, or "" when absent; the default payload sends `{"body": "", "event": "COMMENT"}` |
| GatewayProperties.MergeDefaults | githubmcp.py:151-152 | the default merge payload PUTs `{commit_title: null, commit_message: null, merge_method: "merge"}` to `pulls/{n}/merge` |
| GatewayProperties.CreateBranchFirstCall | githubmcp.py:110-111 | the first call is a body-less GET of `git/ref/heads/{base_branch}` carrying the token |
| GatewayProperties.CreateBranchDefaultBase | githubmcp.py:56-58 | a payload naming only the new branch reads `git/ref/heads/main` |
| GatewayProperties.CreateBranchSecondCall | githubmcp.py:110-118 | a second call happens iff the read's status is below 400 and its body is a dict whose `object` is a dict with a truthy `sha`; it POSTs to `git/refs` with exactly `{ref: "refs/heads/" + new_branch, sha}` and the same headers, and its classified response is the result |
| GatewayProperties.CreateBranchReadFailure | githubmcp.py:111 | a failed base-ref read is the result unchanged, and only that one call is made |
| GatewayProperties.CreateBranchNoSha | githubmcp.py:112-114 | a missing `object`, or a missing or falsy `sha`, gives the fixed 500 error after one call |
| GatewayProperties.CreateBranchNotADict | githubmcp.py:112 | a successful read whose body, or whose present `object`, is not a dict crashes the handler after one call |
| GatewayProperties.HandleWithoutCredentials | githubmcp.py:31-34 | with no header and no fallback, every endpoint answers 401 with the fixed detail and calls nothing |
| GatewayProperties.HandleSingleCall | githubmcp.py:99-163 | a single-call endpoint makes exactly its translated call and returns that call's classified response |
| GatewayProperties.HandleNotFound | githubmcp.py:42-48 | for a single-call endpoint, an upstream 404 with a JSON body makes the handler raise `HttpError(404, body)`: the upstream body, unchanged, is the exception's detail |
| GatewayProperties.CreateBranchCallsCarryToken | githubmcp.py:37-41 | both calls of branch creation go to the API base, address a resource of the requested repository, and carry exactly the token and the v3 Accept header |
| GatewayProperties.HandleCallsCarryToken | githubmcp.py:37-41 | every call goes to the API base, addresses a resource of the requested repository, and carries exactly the resolved token and the v3 Accept header |
| Scenarios.BranchScenario | githubmcp.py:106-118 | creating `feature-x` from `main` on acme/widget with a Bearer token: GET of the base ref, then POST of `refs/heads/feature-x` at sha abc123; the caller gets the creation's body |

## Left out

- FastAPI application setup, CORS middleware, routing, and `Depends`/`Header` injection are not modelled. An `Endpoint` value is a request that has already been routed. Owner and repo are single path segments (`FromRouter`).
- Pydantic validation and coercion (the 422 answers) are not modelled. Payloads are the validated objects; only their defaults are modelled.
- The HTTP exchange and JSON decoding are abstract. The upstream is a function parameter, and a response carries an optional decoded body. Transport exceptions raised by `requests` are not modelled.
- JSON floating-point numbers are not modelled: numbers are integers. JSON object key order is not modelled: objects are maps.
- How the framework renders an `HTTPException` is not modelled. An `HttpError(status, detail)` is the raised exception; FastAPI sends it as `{"detail": detail}` with that status.
- The status code of a successful answer is not modelled. The framework always answers 200, so the model keeps only the body.
- Reading `GITHUB_TOKEN` from the environment is replaced by the `fallback` parameter.
- The `print(token)` at githubmcp.py:38 is not reproduced. It leaks a credential and has no functional effect.
- The manifest, health and root endpoints (constant payloads) and the uvicorn launch block are not modelled.
- PyStr.Lower folds ASCII letters only. That is exact for the one comparison the code makes (`== "bearer"`), because no other character lower-cases to b, e, a or r. Other characters may differ from Python's `lower()`.
