/**
 * The GitHub REST resources the gateway talks to, the upstream path each one
 * is written as, and a parser that reads a path back. The round trip
 * `ParseRoute(RoutePath(r)) == Some(r)` shows that no two resources share a
 * path, as long as owner and repository names are single path segments.
 */
module Routes {
  import opened Wrappers

  // ------------------------------------------------------- decimal numbers

  predicate IsDigit(c: char) {
    '0' <= c <= '9'
  }

  function DigitChar(d: nat): (c: char)
    requires d < 10
    ensures IsDigit(c)
  {
    ('0' as int + d) as char
  }

  function DigitValue(c: char): (d: nat)
    requires IsDigit(c)
    ensures d < 10 && DigitChar(d) == c
  {
    c as int - '0' as int
  }

  /** Decimal digits of `n`, most significant first, no leading zeros. */
  function NatToString(n: nat): (s: string)
    ensures s != [] && forall i :: 0 <= i < |s| ==> IsDigit(s[i])
  {
    if n < 10 then [DigitChar(n)] else NatToString(n / 10) + [DigitChar(n % 10)]
  }

  /** Python's `str(n)` for an int: a minus sign before the digits when negative. */
  function IntToString(n: int): (s: string)
    ensures s != [] && '/' !in s
  {
    if n < 0 then "-" + NatToString(-n) else NatToString(n)
  }

  function ParseNat(s: string): Option<nat>
    decreases |s|
  {
    if s == [] || !IsDigit(s[|s| - 1]) then None
    else if |s| == 1 then Some(DigitValue(s[0]))
    else match ParseNat(s[..|s| - 1])
      case None => None
      case Some(high) => Some(high * 10 + DigitValue(s[|s| - 1]))
  }

  function ParseInt(s: string): Option<int> {
    var negative := s != [] && s[0] == '-';
    match ParseNat(if negative then s[1..] else s)
    case None => None
    case Some(n) => Some(if negative then -(n as int) else n as int)
  }

  lemma {:induction false} ParseNatToString(n: nat)
    ensures ParseNat(NatToString(n)) == Some(n)
  {
    if n >= 10 {
      var s := NatToString(n);
      assert s[..|s| - 1] == NatToString(n / 10);
      ParseNatToString(n / 10);
    }
  }

  /** Reading back `str(n)` gives `n`. */
  lemma ParseIntToString(n: int)
    ensures ParseInt(IntToString(n)) == Some(n)
  {
    if n < 0 {
      assert IntToString(n)[1..] == NatToString(-n);
      ParseNatToString(-n);
    } else {
      ParseNatToString(n);
      assert IsDigit(NatToString(n)[0]);
    }
  }

  // ---------------------------------------------------------- path segments

  /** What a `{name}` path parameter can hold: a non-empty run without '/'. */
  predicate IsSegment(s: string) {
    s != [] && '/' !in s
  }

  /** The text before the first '/', and what follows that '/' if there is one. */
  function Cut(s: string): (r: (string, Option<string>))
    ensures '/' !in r.0
    ensures r.1.None? ==> r.0 == s
    ensures r.1.Some? ==> s == r.0 + "/" + r.1.value
    decreases |s|
  {
    if s == [] then ([], None)
    else if s[0] == '/' then ([], Some(s[1..]))
    else
      var (head, rest) := Cut(s[1..]);
      ([s[0]] + head, rest)
  }

  /** Cut finds the first '/', so a slash-free head is recovered exactly. */
  lemma CutAt(head: string, rest: string)
    requires '/' !in head
    ensures Cut(head + "/" + rest) == (head, Some(rest))
  {
    CutUnique(head + "/" + rest, head, rest);
  }

  lemma {:induction false} CutUnique(s: string, head: string, rest: string)
    requires '/' !in head && s == head + "/" + rest
    ensures Cut(s) == (head, Some(rest))
    decreases |s|
  {
    if head != [] {
      assert s[0] == head[0] && head[0] != '/';
      assert s[1..] == head[1..] + "/" + rest;
      CutUnique(s[1..], head[1..], rest);
      assert [s[0]] + head[1..] == head;
    } else {
      assert s[0] == '/';
      assert s[1..] == rest;
    }
  }

  lemma {:induction false} CutWhole(s: string)
    requires '/' !in s
    ensures Cut(s) == (s, None)
    decreases |s|
  {
    if s != [] {
      assert s[0] in s;
      assert forall c :: c in s[1..] ==> c in s;
      CutWhole(s[1..]);
      assert [s[0]] + s[1..] == s;
    }
  }

  // ---------------------------------------------------------------- routes

  datatype Route =
    | Branches(owner: string, repo: string)
    | BranchRef(owner: string, repo: string, branch: string)
    | Refs(owner: string, repo: string)
    | Pulls(owner: string, repo: string)
    | Pull(owner: string, repo: string, number: int)
    | PullReviews(owner: string, repo: string, number: int)
    | PullMerge(owner: string, repo: string, number: int)
    | Contents(owner: string, repo: string, path: string)

  const ReposPrefix: string := "/repos/"

  /** The part of the path after `/repos/{owner}/{repo}/`. */
  function RouteTail(r: Route): string {
    match r
    case Branches(_, _) => "branches"
    case BranchRef(_, _, branch) => "git/ref/heads/" + branch
    case Refs(_, _) => "git/refs"
    case Pulls(_, _) => "pulls"
    case Pull(_, _, n) => "pulls/" + IntToString(n)
    case PullReviews(_, _, n) => "pulls/" + IntToString(n) + "/reviews"
    case PullMerge(_, _, n) => "pulls/" + IntToString(n) + "/merge"
    case Contents(_, _, path) => "contents/" + path
  }

  /** The upstream path of a resource, as the handlers format it. */
  function RoutePath(r: Route): string {
    "/repos/" + r.owner + "/" + r.repo + "/" + RouteTail(r)
  }

  const HeadsPrefix: string := "ref/heads/"

  /** What follows `git/`: either `refs` or `ref/heads/{branch}`. */
  function ParseGit(owner: string, repo: string, rest: string): Option<Route> {
    if rest == "refs" then Some(Refs(owner, repo))
    else if |rest| >= |HeadsPrefix| && rest[..|HeadsPrefix|] == HeadsPrefix then
      Some(BranchRef(owner, repo, rest[|HeadsPrefix|..]))
    else None
  }

  /** What follows `pulls/`: a number, optionally followed by `reviews` or `merge`. */
  function ParsePull(owner: string, repo: string, rest: string): Option<Route> {
    var (num, more) := Cut(rest);
    match ParseInt(num)
    case None => None
    case Some(n) =>
      if more.None? then Some(Pull(owner, repo, n))
      else if more.value == "reviews" then Some(PullReviews(owner, repo, n))
      else if more.value == "merge" then Some(PullMerge(owner, repo, n))
      else None
  }

  function ParseTail(owner: string, repo: string, tail: string): Option<Route> {
    var (head, rest) := Cut(tail);
    if rest.None? then
      if head == "branches" then Some(Branches(owner, repo))
      else if head == "pulls" then Some(Pulls(owner, repo))
      else None
    else if head == "contents" then Some(Contents(owner, repo, rest.value))
    else if head == "git" then ParseGit(owner, repo, rest.value)
    else if head == "pulls" then ParsePull(owner, repo, rest.value)
    else None
  }

  /** The resource an upstream path names, if it is one of the gateway's. */
  function ParseRoute(path: string): Option<Route> {
    if |path| < |ReposPrefix| || path[..|ReposPrefix|] != ReposPrefix then None
    else
      var (owner, r1) := Cut(path[|ReposPrefix|..]);
      if r1.None? then None
      else
        var (repo, r2) := Cut(r1.value);
        if r2.None? then None
        else ParseTail(owner, repo, r2.value)
  }

  predicate WellFormed(r: Route) {
    IsSegment(r.owner) && IsSegment(r.repo)
  }

  /** Splitting a concatenation at the join gives back its two halves. */
  lemma Halves(p: string, q: string)
    ensures (p + q)[..|p|] == p && (p + q)[|p|..] == q
  {
  }

  lemma ParseGitTail(owner: string, repo: string, branch: string)
    ensures ParseTail(owner, repo, "git/refs") == Some(Refs(owner, repo))
    ensures ParseTail(owner, repo, "git/ref/heads/" + branch) == Some(BranchRef(owner, repo, branch))
  {
    assert "git/refs" == "git" + "/" + "refs";
    CutAt("git", "refs");
    var rest := HeadsPrefix + branch;
    assert "git/ref/heads/" + branch == "git" + "/" + rest;
    CutAt("git", rest);
    Halves(HeadsPrefix, branch);
    assert |rest| > |"refs"|;
  }

  lemma ParsePullTail(owner: string, repo: string, n: int)
    ensures ParseTail(owner, repo, "pulls/" + IntToString(n)) == Some(Pull(owner, repo, n))
    ensures ParseTail(owner, repo, "pulls/" + IntToString(n) + "/reviews") == Some(PullReviews(owner, repo, n))
    ensures ParseTail(owner, repo, "pulls/" + IntToString(n) + "/merge") == Some(PullMerge(owner, repo, n))
  {
    var num := IntToString(n);
    ParseIntToString(n);
    assert "pulls/" + num == "pulls" + "/" + num;
    CutAt("pulls", num);
    CutWhole(num);
    assert "pulls/" + num + "/reviews" == "pulls" + "/" + (num + "/" + "reviews");
    CutAt("pulls", num + "/" + "reviews");
    CutAt(num, "reviews");
    assert "pulls/" + num + "/merge" == "pulls" + "/" + (num + "/" + "merge");
    CutAt("pulls", num + "/" + "merge");
    CutAt(num, "merge");
  }

  lemma ParseBranchesTail(owner: string, repo: string)
    ensures ParseTail(owner, repo, "branches") == Some(Branches(owner, repo))
  {
    CutWhole("branches");
  }

  lemma ParsePullsTail(owner: string, repo: string)
    ensures ParseTail(owner, repo, "pulls") == Some(Pulls(owner, repo))
  {
    CutWhole("pulls");
  }

  lemma ParseContentsTail(owner: string, repo: string, path: string)
    ensures ParseTail(owner, repo, "contents/" + path) == Some(Contents(owner, repo, path))
  {
    assert "contents/" + path == "contents" + "/" + path;
    CutAt("contents", path);
  }

  /** The tail of every resource's path reads back as that resource. */
  lemma ParseTailOf(r: Route)
    ensures ParseTail(r.owner, r.repo, RouteTail(r)) == Some(r)
  {
    match r
    case Branches(owner, repo) => ParseBranchesTail(owner, repo);
    case Pulls(owner, repo) => ParsePullsTail(owner, repo);
    case Contents(owner, repo, path) => ParseContentsTail(owner, repo, path);
    case Refs(owner, repo) => ParseGitTail(owner, repo, "");
    case BranchRef(owner, repo, branch) => ParseGitTail(owner, repo, branch);
    case Pull(owner, repo, n) => ParsePullTail(owner, repo, n);
    case PullReviews(owner, repo, n) => ParsePullTail(owner, repo, n);
    case PullMerge(owner, repo, n) => ParsePullTail(owner, repo, n);
  }

  lemma RoutePathShape(r: Route)
    ensures RoutePath(r) == ReposPrefix + (r.owner + "/" + (r.repo + "/" + RouteTail(r)))
  {
  }

  /** Every resource's path reads back as that resource. */
  lemma ParseRoutePath(r: Route)
    requires WellFormed(r)
    ensures ParseRoute(RoutePath(r)) == Some(r)
  {
    var rest := r.repo + "/" + RouteTail(r);
    RoutePathShape(r);
    Halves(ReposPrefix, r.owner + "/" + rest);
    CutAt(r.owner, rest);
    CutAt(r.repo, RouteTail(r));
    ParseTailOf(r);
  }

  /** Two well-formed resources with the same path are the same resource. */
  lemma RoutePathInjective(r1: Route, r2: Route)
    requires WellFormed(r1) && WellFormed(r2)
    requires RoutePath(r1) == RoutePath(r2)
    ensures r1 == r2
  {
    ParseRoutePath(r1);
    ParseRoutePath(r2);
  }
}
