/**
 URL classification (`getProblemInfo` in js/background.js): a page URL is either not a
 problem page, or a Codeforces or LeetCode problem with a canonical URL that identifies
 the problem across visits.
 */
module Classifier {
  import opened Options
  import opened Text
  import opened Records

  /** The parts of a parsed WHATWG URL. The classifier reads `origin`, `hostname` and
      `pathname`; `search` and `hash` are kept so that lemmas can say they do not matter. */
  datatype Url = Url(origin: string, hostname: string, pathname: string, search: string, hash: string)

  datatype ProblemInfo = NotProblemPage | ProblemPage(platform: Platform, canonicalUrl: string)

  const CodeforcesHost := "codeforces.com"
  const LeetCodeHost := "leetcode.com"
  const ProblemsPrefix := "/problems/"

  // ---------------------------------------------------------------------------
  // Codeforces path pattern, matched at the start of the path with the `i` flag:
  //   `/` then `problemset/problem` | `contest/` digits | `gym/` digits,
  //   then `/problem/` and one letter or digit.
  // ---------------------------------------------------------------------------

  /** `/problem/` followed by a letter or digit: the tail shared by all three forms. */
  predicate ProblemCodeAt(s: string) {
    StartsWithIgnoringCase(s, "/problem/") && |s| > 9 && IsAlnum(s[9])
  }

  /** One or more digits, then the problem code tail. A greedy digit run is the only
      split that can work, because the tail begins with `/`. */
  predicate DigitsThenProblemCode(s: string) {
    var n := Span(s, IsDigit);
    n > 0 && ProblemCodeAt(s[n..])
  }

  /** The Codeforces path test as the program performs it. Its first alternative is
      `problemset/problem` directly followed by the shared `/problem/` tail. */
  predicate CodeforcesPathMatches(path: string) {
    || (StartsWithIgnoringCase(path, "/problemset/problem") && ProblemCodeAt(path[19..]))
    || (StartsWithIgnoringCase(path, "/contest/") && DigitsThenProblemCode(path[9..]))
    || (StartsWithIgnoringCase(path, "/gym/") && DigitsThenProblemCode(path[5..]))
  }

  ghost predicate AllDigits(s: string) {
    forall i :: 0 <= i < |s| ==> IsDigit(s[i])
  }

  /** Reference reading of `\d+\/problem\/[A-Z0-9]` as a regular expression: SOME
      non-empty run of digits followed by the tail. */
  ghost predicate DigitRunThenCode(s: string) {
    exists n :: 0 < n <= |s| && AllDigits(s[..n]) && ProblemCodeAt(s[n..])
  }

  /** Reference reading of the whole Codeforces pattern. */
  ghost predicate CodeforcesPattern(path: string) {
    || (StartsWithIgnoringCase(path, "/problemset/problem") && ProblemCodeAt(path[19..]))
    || (StartsWithIgnoringCase(path, "/contest/") && DigitRunThenCode(path[9..]))
    || (StartsWithIgnoringCase(path, "/gym/") && DigitRunThenCode(path[5..]))
  }

  /** The greedy digit scan accepts exactly what the backtracking pattern accepts. */
  lemma DigitsThenProblemCodeIsPattern(s: string)
    ensures DigitsThenProblemCode(s) <==> DigitRunThenCode(s)
  {
    var k := Span(s, IsDigit);
    if DigitsThenProblemCode(s) {
      assert AllDigits(s[..k]);
    }
    if DigitRunThenCode(s) {
      var n :| 0 < n <= |s| && AllDigits(s[..n]) && ProblemCodeAt(s[n..]);
      assert ToLowerChar(s[n..][0]) == '/';
      ToLowerCharNonLetter(s[n], '/');
      assert forall i :: 0 <= i < n ==> s[..n][i] == s[i];
      SpanUnique(s, IsDigit, n);
    }
  }

  lemma CodeforcesPathMatchesIsPattern(path: string)
    ensures CodeforcesPathMatches(path) <==> CodeforcesPattern(path)
  {
    if |path| >= 9 {
      DigitsThenProblemCodeIsPattern(path[9..]);
    }
    if |path| >= 5 {
      DigitsThenProblemCodeIsPattern(path[5..]);
    }
  }

  // ---------------------------------------------------------------------------
  // LeetCode path pattern `^\/problems\/([a-zA-Z0-9-]+)\/?`
  // ---------------------------------------------------------------------------

  predicate IsSlugChar(c: char) { IsAlnum(c) || c == '-' }

  /** The captured slug: the longest run of slug characters right after `/problems/`,
      case kept; `None` when the path does not match. */
  function LeetCodeSlug(path: string): (slug: Option<string>)
    ensures slug.Some? ==> slug.value != [] && ProblemsPrefix + slug.value <= path
  {
    if ProblemsPrefix <= path then
      var rest := path[|ProblemsPrefix|..];
      var n := Span(rest, IsSlugChar);
      if n > 0 then
        assert path[..|ProblemsPrefix| + n] == ProblemsPrefix + rest[..n];
        Some(rest[..n])
      else None
    else None
  }

  /** Reference: `slug` is what the pattern captures from `path`, i.e. `path` is
      `/problems/`, then `slug`, then nothing or a character outside the slug class. */
  ghost predicate CapturesSlug(path: string, slug: string) {
    var end := |ProblemsPrefix| + |slug|;
    && ProblemsPrefix + slug <= path
    && slug != []
    && (forall i :: 0 <= i < |slug| ==> IsSlugChar(slug[i]))
    && (end == |path| || !IsSlugChar(path[end]))
  }

  lemma LeetCodeSlugIsCapture(path: string, slug: string)
    ensures LeetCodeSlug(path) == Some(slug) <==> CapturesSlug(path, slug)
  {
    var p := |ProblemsPrefix|;
    if LeetCodeSlug(path) == Some(slug) {
      var n := Span(path[p..], IsSlugChar);
      assert slug == path[p..][..n];
      assert forall i :: 0 <= i < |slug| ==> slug[i] == path[p..][i];
      assert p + |slug| < |path| ==> path[p + |slug|] == path[p..][n];
    }
    if CapturesSlug(path, slug) {
      var whole := ProblemsPrefix + slug;
      assert path[..|whole|] == whole;
      assert path[..p] == whole[..p] == ProblemsPrefix;
      var rest := path[p..];
      assert path[p..p + |slug|] == path[..|whole|][p..];
      assert rest[..|slug|] == path[p..p + |slug|] == whole[p..] == slug;
      assert forall i :: 0 <= i < |slug| ==> rest[i] == slug[i];
      assert |slug| < |rest| ==> rest[|slug|] == path[p + |slug|];
      SpanUnique(rest, IsSlugChar, |slug|);
    }
  }

  /** `/problems/` + slug + suffix captures the slug when the suffix starts with a
      character outside the slug class, or is empty. */
  lemma SlugPathCaptures(slug: string, rest: string)
    requires slug != [] && forall i :: 0 <= i < |slug| ==> IsSlugChar(slug[i])
    requires rest == [] || !IsSlugChar(rest[0])
    ensures CapturesSlug(ProblemsPrefix + slug + rest, slug)
  {
    var path := ProblemsPrefix + slug + rest;
    assert path == (ProblemsPrefix + slug) + rest;
    assert |ProblemsPrefix + slug| < |path| ==> path[|ProblemsPrefix + slug|] == rest[0];
  }

  // ---------------------------------------------------------------------------
  // getProblemInfo
  // ---------------------------------------------------------------------------

  /** Classifies a page. `parsed` is the result of `new URL(...)` on the page's URL,
      `None` when that constructor throws; the classifier itself never fails. */
  function GetProblemInfo(parsed: Option<Url>): (info: ProblemInfo)
    ensures parsed.None? ==> info == NotProblemPage
    ensures info.ProblemPage? ==> parsed.Some? && parsed.value.origin <= info.canonicalUrl
    ensures info.ProblemPage? && info.platform == CF ==> EndsWith(parsed.value.hostname, CodeforcesHost)
    ensures info.ProblemPage? && info.platform == LC ==>
      && EndsWith(parsed.value.hostname, LeetCodeHost)
      && parsed.value.origin + ProblemsPrefix <= info.canonicalUrl
      && |info.canonicalUrl| > |parsed.value.origin + ProblemsPrefix| + 1
      && EndsWith(info.canonicalUrl, "/")
  {
    match parsed
    case None => NotProblemPage
    case Some(url) =>
      if EndsWith(url.hostname, CodeforcesHost) && CodeforcesPathMatches(url.pathname) then
        ProblemPage(CF, url.origin + url.pathname)
      else if EndsWith(url.hostname, LeetCodeHost) && LeetCodeSlug(url.pathname).Some? then
        var id := url.origin + ProblemsPrefix + LeetCodeSlug(url.pathname).value + "/";
        assert id == (url.origin + ProblemsPrefix) + (LeetCodeSlug(url.pathname).value + "/");
        ProblemPage(LC, id)
      else
        NotProblemPage
  }

  /** No host name ends with both platform domains. */
  lemma HostsExclusive(host: string)
    ensures EndsWith(host, CodeforcesHost) ==> !EndsWith(host, LeetCodeHost)
  {
    if EndsWith(host, CodeforcesHost) {
      assert host[|host| - 14..][2] == CodeforcesHost[2] == 'd';
      assert host[|host| - 12..][0] == 'd';
    }
  }

  /** A Codeforces problem page is recognised exactly when the host ends in
      `codeforces.com` and the path matches the pattern; its identity is origin + path. */
  lemma CodeforcesClassification(u: Url)
    ensures var info := GetProblemInfo(Some(u));
      (info.ProblemPage? && info.platform == CF)
      <==> (EndsWith(u.hostname, CodeforcesHost) && CodeforcesPattern(u.pathname))
    ensures var info := GetProblemInfo(Some(u));
      info.ProblemPage? && info.platform == CF ==> info.canonicalUrl == u.origin + u.pathname
  {
    CodeforcesPathMatchesIsPattern(u.pathname);
  }

  /** Two Codeforces problem pages on the same origin share an identity only if their
      paths are equal: a different path suffix gives a different identity. */
  lemma CodeforcesPathDistinguishes(u: Url, v: Url)
    requires u.origin == v.origin && u.pathname != v.pathname
    requires GetProblemInfo(Some(u)).ProblemPage? && GetProblemInfo(Some(u)).platform == CF
    requires GetProblemInfo(Some(v)).ProblemPage? && GetProblemInfo(Some(v)).platform == CF
    ensures GetProblemInfo(Some(u)).canonicalUrl != GetProblemInfo(Some(v)).canonicalUrl
  {
    var a, b := u.origin + u.pathname, v.origin + v.pathname;
    assert a[|u.origin|..] == u.pathname;
    assert b[|u.origin|..] == v.pathname;
  }

  /** The query string and the fragment never affect the classification. */
  lemma IgnoresQueryAndHash(u: Url, search: string, hash: string)
    ensures GetProblemInfo(Some(u)) == GetProblemInfo(Some(u.(search := search, hash := hash)))
  {
  }

  /** A LeetCode URL whose path captures `slug` is the problem
      origin + `/problems/` + slug + `/`. */
  lemma LeetCodeClassification(u: Url, slug: string)
    requires EndsWith(u.hostname, LeetCodeHost) && CapturesSlug(u.pathname, slug)
    ensures GetProblemInfo(Some(u)) == ProblemPage(LC, u.origin + ProblemsPrefix + slug + "/")
  {
    HostsExclusive(u.hostname);
    LeetCodeSlugIsCapture(u.pathname, slug);
  }

  /** Conversely, a LeetCode problem page has a LeetCode host and a path that captures a
      slug, and its identity is built from that slug. */
  lemma LeetCodeHitCapturesSlug(u: Url)
    requires GetProblemInfo(Some(u)).ProblemPage? && GetProblemInfo(Some(u)).platform == LC
    ensures EndsWith(u.hostname, LeetCodeHost)
    ensures exists slug ::
      && CapturesSlug(u.pathname, slug)
      && GetProblemInfo(Some(u)).canonicalUrl == u.origin + ProblemsPrefix + slug + "/"
  {
    var slug := LeetCodeSlug(u.pathname).value;
    LeetCodeSlugIsCapture(u.pathname, slug);
  }

  /** A LeetCode path in which the pattern captures no slug is not a problem page. */
  lemma LeetCodePathWithoutSlugRejected(u: Url)
    requires EndsWith(u.hostname, LeetCodeHost)
    requires forall slug :: !CapturesSlug(u.pathname, slug)
    ensures GetProblemInfo(Some(u)) == NotProblemPage
  {
    HostsExclusive(u.hostname);
    if LeetCodeSlug(u.pathname).Some? {
      LeetCodeSlugIsCapture(u.pathname, LeetCodeSlug(u.pathname).value);
    }
  }

  /** LeetCode URLs of one problem that differ in what follows the slug
      (`/description/`, `/submissions/`, nothing), in the query or in the fragment
      get the same identity. */
  lemma LeetCodeIdIgnoresSuffix(u: Url, v: Url, slug: string)
    requires u.origin == v.origin && u.hostname == v.hostname
    requires EndsWith(u.hostname, LeetCodeHost)
    requires CapturesSlug(u.pathname, slug) && CapturesSlug(v.pathname, slug)
    ensures GetProblemInfo(Some(u)) == GetProblemInfo(Some(v))
    ensures GetProblemInfo(Some(u)).ProblemPage? && GetProblemInfo(Some(u)).platform == LC
  {
    LeetCodeClassification(u, slug);
    LeetCodeClassification(v, slug);
  }

  /** A page on neither platform's host, or a URL that does not parse, is not a problem page. */
  lemma ForeignHostIsNotProblemPage(parsed: Option<Url>)
    requires parsed.Some? ==>
      !EndsWith(parsed.value.hostname, CodeforcesHost) && !EndsWith(parsed.value.hostname, LeetCodeHost)
    ensures GetProblemInfo(parsed) == NotProblemPage
  {
  }

  /** A literal without upper-case letters matches, under the `i` flag, wherever it
      occurs verbatim. */
  lemma LowerLiteralMatches(s: string, lit: string)
    requires lit <= s && forall i :: 0 <= i < |lit| ==> !IsUpper(lit[i])
    ensures StartsWithIgnoringCase(s, lit)
  {
    assert forall i :: 0 <= i < |lit| ==> s[i] == lit[i];
  }

  lemma ProblemTailMatches(code: char, rest: string)
    requires IsAlnum(code)
    ensures ProblemCodeAt("/problem/" + [code] + rest)
  {
    var t := "/problem/" + [code] + rest;
    assert "/problem/" <= t;
    LowerLiteralMatches(t, "/problem/");
    assert t[9] == code;
  }

  lemma DigitsThenTailMatches(id: string, code: char, rest: string)
    requires id != [] && AllDigits(id) && IsAlnum(code)
    ensures DigitsThenProblemCode(id + "/problem/" + [code] + rest)
  {
    var tail := "/problem/" + [code] + rest;
    var s := id + "/problem/" + [code] + rest;
    assert s == id + tail;
    assert s[|id|] == '/';
    assert forall i :: 0 <= i < |id| ==> s[i] == id[i];
    SpanUnique(s, IsDigit, |id|);
    assert s[|id|..] == tail;
    ProblemTailMatches(code, rest);
  }

  /** `/contest/{id}/problem/{code}...` is a Codeforces problem path. */
  lemma ContestPathMatches(id: string, code: char, rest: string)
    requires id != [] && AllDigits(id) && IsAlnum(code)
    ensures CodeforcesPathMatches("/contest/" + id + "/problem/" + [code] + rest)
  {
    var tail := id + "/problem/" + [code] + rest;
    var path := "/contest/" + tail;
    assert path == "/contest/" + id + "/problem/" + [code] + rest;
    assert "/contest/" <= path;
    LowerLiteralMatches(path, "/contest/");
    assert path[9..] == tail;
    DigitsThenTailMatches(id, code, rest);
  }

  /** `/gym/{id}/problem/{code}...` is a Codeforces problem path. */
  lemma GymPathMatches(id: string, code: char, rest: string)
    requires id != [] && AllDigits(id) && IsAlnum(code)
    ensures CodeforcesPathMatches("/gym/" + id + "/problem/" + [code] + rest)
  {
    var tail := id + "/problem/" + [code] + rest;
    var path := "/gym/" + tail;
    assert path == "/gym/" + id + "/problem/" + [code] + rest;
    assert "/gym/" <= path;
    LowerLiteralMatches(path, "/gym/");
    assert path[5..] == tail;
    DigitsThenTailMatches(id, code, rest);
  }

  /** `/problemset/problem/{id}...` with a numeric contest id is not a problem path:
      none of the three alternatives can start it. */
  lemma ProblemsetIdRejected(id: string, rest: string)
    requires id != [] && AllDigits(id)
    ensures !CodeforcesPathMatches("/problemset/problem/" + id + rest)
  {
    var p := "/problemset/problem/" + id + rest;
    assert p[1] == 'p' && p[20] == id[0];
    assert !StartsWithIgnoringCase(p, "/contest/") by { assert ToLowerChar(p[1]) != "/contest/"[1]; }
    assert !StartsWithIgnoringCase(p, "/gym/") by { assert ToLowerChar(p[1]) != "/gym/"[1]; }
    assert !ProblemCodeAt(p[19..]) by { assert ToLowerChar(p[19..][1]) != "/problem/"[1]; }
  }

  /** The `problemset` alternative is directly followed by a second `/problem/`, so
      `/problemset/problem/problem/{code}...` is a problem path. */
  lemma ProblemsetProblemAccepted(code: char, rest: string)
    requires IsAlnum(code)
    ensures CodeforcesPathMatches("/problemset/problem/problem/" + [code] + rest)
  {
    var tail := "/problem/" + [code] + rest;
    var q := "/problemset/problem" + tail;
    assert q == "/problemset/problem/problem/" + [code] + rest;
    assert "/problemset/problem" <= q;
    LowerLiteralMatches(q, "/problemset/problem");
    assert q[19..] == tail;
    ProblemTailMatches(code, rest);
  }

  /** A contest problem address, whatever its origin, query and fragment: the query and
      fragment are dropped. */
  lemma ContestExample(origin: string, search: string, hash: string)
    ensures GetProblemInfo(Some(Url(origin, "codeforces.com", "/contest/1234/problem/A", search, hash)))
         == ProblemPage(CF, origin + "/contest/1234/problem/A")
  {
    assert "/contest/1234/problem/A" == "/contest/" + "1234" + "/problem/" + ['A'] + "";
    ContestPathMatches("1234", 'A', "");
    assert EndsWith("codeforces.com", CodeforcesHost);
  }

  /** The usual problemset address is not recognised; the doubled form is. */
  lemma ProblemsetExamples(origin: string, search: string, hash: string)
    ensures GetProblemInfo(Some(Url(origin, "codeforces.com", "/problemset/problem/1234/A", search, hash)))
         == NotProblemPage
    ensures GetProblemInfo(Some(Url(origin, "codeforces.com", "/problemset/problem/problem/A", search, hash)))
         == ProblemPage(CF, origin + "/problemset/problem/problem/A")
  {
    assert "/problemset/problem/1234/A" == "/problemset/problem/" + "1234" + "/A";
    assert "/problemset/problem/problem/A" == "/problemset/problem/problem/" + ['A'] + "";
    ProblemsetIdRejected("1234", "/A");
    ProblemsetProblemAccepted('A', "");
    assert EndsWith("codeforces.com", CodeforcesHost);
    HostsExclusive("codeforces.com");
  }

  /** The description page of a LeetCode problem. */
  lemma LeetCodeExample(origin: string, search: string, hash: string)
    ensures GetProblemInfo(Some(Url(origin, "leetcode.com", "/problems/two-sum/description/", search, hash)))
         == ProblemPage(LC, origin + ProblemsPrefix + "two-sum" + "/")
  {
    var path := "/problems/two-sum/description/";
    assert path == ProblemsPrefix + "two-sum" + "/description/";
    assert forall i :: 0 <= i < |"two-sum"| ==> IsSlugChar("two-sum"[i]);
    SlugPathCaptures("two-sum", "/description/");
    assert EndsWith("leetcode.com", LeetCodeHost);
    LeetCodeClassification(Url(origin, "leetcode.com", path, search, hash), "two-sum");
  }

  lemma ForeignHostExample(origin: string, path: string, search: string, hash: string)
    ensures GetProblemInfo(Some(Url(origin, "example.com", path, search, hash))) == NotProblemPage
  {
  }
}
