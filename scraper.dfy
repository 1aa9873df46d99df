/**
 The page-side scraper of js/content_script.js: which platform a page is on, and the
 title and tags it reports, computed from the texts the page's elements hold.
 */
module Scraper {
  import opened Options
  import opened Text
  import opened Records

  /** What the scraper reads from the page: its host name, the text of the Codeforces
      title element (if there is one), the texts of the Codeforces tag boxes and the
      texts of the LeetCode tag links, each in document order. */
  datatype Page = Page(hostname: string, cfTitleText: Option<string>, cfTagTexts: seq<string>,
                       lcTagTexts: seq<string>)

  /** The reply to a details request; `error` is present only when scraping threw. */
  datatype ScrapedData = ScrapedData(title: Option<string>, tags: seq<string>, error: Option<string>)

  const GetProblemDetails := "GET_PROBLEM_DETAILS"

  // ---------------------------------------------------------------------------
  // getPlatform
  // ---------------------------------------------------------------------------

  /** `getPlatform`: a substring test on the host name, Codeforces first. */
  function GetPlatform(hostname: string): Option<Platform> {
    if Contains(hostname, "codeforces.com") then Some(CF)
    else if Contains(hostname, "leetcode.com") then Some(LC)
    else None
  }

  /** Any host name with `codeforces.com` anywhere in it is taken for Codeforces,
      and any other with `leetcode.com` in it for LeetCode: this is not the suffix test
      the background classifier uses. */
  lemma {:induction false} GetPlatformIsSubstringTest(before: string, after: string)
    ensures GetPlatform(before + "codeforces.com" + after) == Some(CF)
    ensures !Contains(before + "leetcode.com" + after, "codeforces.com") ==>
              GetPlatform(before + "leetcode.com" + after) == Some(LC)
  {
    var h := before + "codeforces.com" + after;
    assert h[|before|..|before| + 14] == "codeforces.com";
    ContainsAt(h, "codeforces.com", |before|);
    var g := before + "leetcode.com" + after;
    assert g[|before|..|before| + 12] == "leetcode.com";
    ContainsAt(g, "leetcode.com", |before|);
  }

  /** `getPlatform` decided by occurrences: Codeforces exactly when `codeforces.com`
      occurs in the host name, LeetCode exactly when only `leetcode.com` does, and no
      platform exactly when neither occurs. */
  lemma GetPlatformByOccurrence(hostname: string)
    ensures GetPlatform(hostname) == Some(CF) <==> exists k: nat :: OccursAt(hostname, "codeforces.com", k)
    ensures GetPlatform(hostname) == Some(LC) <==>
      && (forall k: nat :: !OccursAt(hostname, "codeforces.com", k))
      && (exists k: nat :: OccursAt(hostname, "leetcode.com", k))
    ensures GetPlatform(hostname).None? <==>
      && (forall k: nat :: !OccursAt(hostname, "codeforces.com", k))
      && (forall k: nat :: !OccursAt(hostname, "leetcode.com", k))
  {
    ContainsIffOccurs(hostname, "codeforces.com");
    ContainsIffOccurs(hostname, "leetcode.com");
  }

  /** On the hosts the classifier accepts, the page agrees about the platform, except
      for a LeetCode host whose name also contains `codeforces.com`. */
  lemma GetPlatformOnClassifiedHosts(hostname: string)
    ensures EndsWith(hostname, "codeforces.com") ==> GetPlatform(hostname) == Some(CF)
    ensures EndsWith(hostname, "leetcode.com") && !Contains(hostname, "codeforces.com") ==>
              GetPlatform(hostname) == Some(LC)
  {
    if EndsWith(hostname, "codeforces.com") {
      EndsWithContains(hostname, "codeforces.com");
    }
    if EndsWith(hostname, "leetcode.com") {
      EndsWithContains(hostname, "leetcode.com");
    }
  }

  // ---------------------------------------------------------------------------
  // Codeforces title: trim, then drop a leading `[A-Z0-9]+\.\s*`
  // ---------------------------------------------------------------------------

  predicate IsIndexChar(c: char) { IsUpper(c) || IsDigit(c) }

  /** Removes a leading problem index such as `A.` or `1B.` and the whitespace after it. */
  function StripProblemIndex(t: string): string {
    var n := Span(t, IsIndexChar);
    if 0 < n < |t| && t[n] == '.' then
      var rest := t[n + 1..];
      rest[Span(rest, IsWhitespace)..]
    else
      t
  }

  /** `t` starts with a problem index: upper-case letters or digits, then a dot. */
  ghost predicate HasIndexPrefix(t: string) {
    exists n :: 0 < n < |t| && (forall i :: 0 <= i < n ==> IsIndexChar(t[i])) && t[n] == '.'
  }

  /** A title written as index, dot, whitespace, name loses exactly the index, the dot and
      the whitespace. */
  lemma StripIndexedTitle(index: string, gap: string, name: string)
    requires index != [] && forall i :: 0 <= i < |index| ==> IsIndexChar(index[i])
    requires forall i :: 0 <= i < |gap| ==> IsWhitespace(gap[i])
    requires name == [] || !IsWhitespace(name[0])
    ensures StripProblemIndex(index + "." + gap + name) == name
  {
    var t := index + "." + gap + name;
    assert forall i :: 0 <= i < |index| ==> t[i] == index[i];
    assert t[|index|] == '.';
    SpanUnique(t, IsIndexChar, |index|);
    var rest := t[|index| + 1..];
    assert rest == gap + name;
    assert forall i :: 0 <= i < |gap| ==> rest[i] == gap[i];
    SpanUnique(rest, IsWhitespace, |gap|);
    assert rest[|gap|..] == name;
  }

  /** A title without a problem index is left as it is. */
  lemma StripUnindexedTitle(t: string)
    requires !HasIndexPrefix(t)
    ensures StripProblemIndex(t) == t
  {
    var n := Span(t, IsIndexChar);
    if 0 < n < |t| && t[n] == '.' {
      assert HasIndexPrefix(t);
    }
  }

  /** The Codeforces title: `None` when the page has no title element, otherwise the
      trimmed text without its problem index. */
  function CodeforcesTitle(titleText: Option<string>): (title: Option<string>)
    ensures title.Some? <==> titleText.Some?
    ensures title.Some? ==> |title.value| <= |titleText.value|
  {
    match titleText
    case None => None
    case Some(text) => Some(StripProblemIndex(Trim(text)))
  }

  // ---------------------------------------------------------------------------
  // Tags
  // ---------------------------------------------------------------------------

  /** Codeforces keeps a trimmed tag text unless it is empty or starts with `*`
      (the difficulty rating shown among the tags). */
  predicate KeepsCodeforcesTag(t: string) {
    t != "" && t[0] != '*'
  }

  /** The Codeforces tags: the kept trimmed texts, in page order, duplicates included. */
  function CodeforcesTags(texts: seq<string>): (tags: seq<string>)
    ensures |tags| <= |texts|
    ensures forall t :: t in tags ==> t != "" && t[0] != '*'
  {
    if texts == [] then []
    else
      var tags := CodeforcesTags(texts[..|texts| - 1]);
      var t := Trim(texts[|texts| - 1]);
      if KeepsCodeforcesTag(t) then tags + [t] else tags
  }

  /** Tag lists of consecutive stretches of the page concatenate: page order is kept
      and nothing is merged or dropped across them. */
  lemma {:induction false} CodeforcesTagsConcat(a: seq<string>, b: seq<string>)
    ensures CodeforcesTags(a + b) == CodeforcesTags(a) + CodeforcesTags(b)
    decreases |b|
  {
    if b == [] {
      assert a + b == a;
    } else {
      var b' := b[..|b| - 1];
      assert (a + b)[..|a + b| - 1] == a + b';
      CodeforcesTagsConcat(a, b');
    }
  }

  /** Every tag is the trimmed text of some tag box. */
  lemma {:induction false} CodeforcesTagsComeFromTexts(texts: seq<string>, t: string)
    requires t in CodeforcesTags(texts)
    ensures KeepsCodeforcesTag(t) && exists i :: 0 <= i < |texts| && Trim(texts[i]) == t
    decreases |texts|
  {
    var front := texts[..|texts| - 1];
    var last := Trim(texts[|texts| - 1]);
    if t in CodeforcesTags(front) {
      CodeforcesTagsComeFromTexts(front, t);
      var i :| 0 <= i < |front| && Trim(front[i]) == t;
      assert texts[i] == front[i];
    } else {
      assert Trim(texts[|texts| - 1]) == t;
    }
  }

  /** Every box whose trimmed text is kept contributes that text as a tag. */
  lemma {:induction false} CodeforcesTagsKeepTexts(texts: seq<string>, i: nat)
    requires i < |texts| && KeepsCodeforcesTag(Trim(texts[i]))
    ensures Trim(texts[i]) in CodeforcesTags(texts)
    decreases |texts|
  {
    var front := texts[..|texts| - 1];
    if i < |front| {
      assert front[i] == texts[i];
      CodeforcesTagsKeepTexts(front, i);
    } else {
      assert CodeforcesTags(texts) == CodeforcesTags(front) + [Trim(texts[i])];
    }
  }

  /** A tag is reported exactly when some tag text trims to it and it is kept. */
  lemma CodeforcesTagsMembership(texts: seq<string>, t: string)
    ensures t in CodeforcesTags(texts) <==>
      KeepsCodeforcesTag(t) && exists i :: 0 <= i < |texts| && Trim(texts[i]) == t
  {
    if t in CodeforcesTags(texts) {
      CodeforcesTagsComeFromTexts(texts, t);
    } else if KeepsCodeforcesTag(t) && exists i :: 0 <= i < |texts| && Trim(texts[i]) == t {
      var i :| 0 <= i < |texts| && Trim(texts[i]) == t;
      CodeforcesTagsKeepTexts(texts, i);
    }
  }

  /** The trimmed non-empty texts, in order. */
  function NonEmptyTrimmed(texts: seq<string>): (r: seq<string>)
    ensures |r| <= |texts|
    ensures forall t :: t in r ==> t != ""
  {
    if texts == [] then []
    else
      var r := NonEmptyTrimmed(texts[..|texts| - 1]);
      var t := Trim(texts[|texts| - 1]);
      if t != "" then r + [t] else r
  }

  /** The trimmed texts of consecutive stretches of links concatenate, so their order
      is the order of the links. */
  lemma {:induction false} NonEmptyTrimmedConcat(a: seq<string>, b: seq<string>)
    ensures NonEmptyTrimmed(a + b) == NonEmptyTrimmed(a) + NonEmptyTrimmed(b)
    decreases |b|
  {
    if b == [] {
      assert a + b == a;
    } else {
      var b' := b[..|b| - 1];
      assert (a + b)[..|a + b| - 1] == a + b';
      NonEmptyTrimmedConcat(a, b');
    }
  }

  /** Every element is the trimmed text of some link. */
  lemma {:induction false} NonEmptyTrimmedComeFromTexts(texts: seq<string>, t: string)
    requires t in NonEmptyTrimmed(texts)
    ensures t != "" && exists i :: 0 <= i < |texts| && Trim(texts[i]) == t
    decreases |texts|
  {
    var front := texts[..|texts| - 1];
    if t in NonEmptyTrimmed(front) {
      NonEmptyTrimmedComeFromTexts(front, t);
      var i :| 0 <= i < |front| && Trim(front[i]) == t;
      assert texts[i] == front[i];
    } else {
      assert Trim(texts[|texts| - 1]) == t;
    }
  }

  /** Every link whose trimmed text is non-empty contributes that text. */
  lemma {:induction false} NonEmptyTrimmedKeepTexts(texts: seq<string>, i: nat)
    requires i < |texts| && Trim(texts[i]) != ""
    ensures Trim(texts[i]) in NonEmptyTrimmed(texts)
    decreases |texts|
  {
    var front := texts[..|texts| - 1];
    if i < |front| {
      assert front[i] == texts[i];
      NonEmptyTrimmedKeepTexts(front, i);
    } else {
      assert NonEmptyTrimmed(texts) == NonEmptyTrimmed(front) + [Trim(texts[i])];
    }
  }

  predicate NoDuplicates(xs: seq<string>) {
    forall i, j :: 0 <= i < j < |xs| ==> xs[i] != xs[j]
  }

  /** Each distinct element once, at the place of its first occurrence: what filling a
      JavaScript `Set` and reading it back with `Array.from` gives. */
  function Dedup(xs: seq<string>): (r: seq<string>)
    ensures NoDuplicates(r)
    ensures forall x :: x in r <==> x in xs
  {
    if xs == [] then []
    else
      var r := Dedup(xs[..|xs| - 1]);
      var x := xs[|xs| - 1];
      assert forall y :: y in xs <==> y in xs[..|xs| - 1] || y == x;
      if x in r then r else r + [x]
  }

  /** Position of the first occurrence of `x` in `xs`. */
  function FirstIndex(xs: seq<string>, x: string): (k: nat)
    requires x in xs
    ensures k < |xs| && xs[k] == x && forall i :: 0 <= i < k ==> xs[i] != x
  {
    if xs[0] == x then 0 else 1 + FirstIndex(xs[1..], x)
  }

  lemma FirstIndexOfFront(xs: seq<string>, x: string)
    requires xs != [] && x in xs[..|xs| - 1]
    ensures FirstIndex(xs, x) == FirstIndex(xs[..|xs| - 1], x)
  {
    var front := xs[..|xs| - 1];
    var k := FirstIndex(front, x);
    assert xs[k] == x;
    var m := FirstIndex(xs, x);
    assert m <= k;
    assert front[m] == xs[m];
  }

  /** `Dedup` keeps elements in the order of their first occurrences. */
  lemma {:induction false} DedupFirstOccurrenceOrder(xs: seq<string>, i: nat, j: nat)
    requires i < j < |Dedup(xs)|
    ensures Dedup(xs)[i] in xs && Dedup(xs)[j] in xs
    ensures FirstIndex(xs, Dedup(xs)[i]) < FirstIndex(xs, Dedup(xs)[j])
    decreases |xs|
  {
    var front := xs[..|xs| - 1];
    var x := xs[|xs| - 1];
    var r := Dedup(front);
    var a, b := Dedup(xs)[i], Dedup(xs)[j];
    assert a in r;
    FirstIndexOfFront(xs, a);
    if j < |r| {
      assert b in r;
      FirstIndexOfFront(xs, b);
      DedupFirstOccurrenceOrder(front, i, j);
    } else {
      assert b == x && x !in front;
      assert FirstIndex(xs, b) == |xs| - 1;
    }
  }

  /** The LeetCode tags: trimmed non-empty texts, each distinct one once, in order of
      first appearance. */
  function LeetCodeTags(texts: seq<string>): (tags: seq<string>)
    ensures NoDuplicates(tags)
    ensures forall t :: t in tags ==> t != ""
    ensures forall t :: t in tags <==> t in NonEmptyTrimmed(texts)
  {
    Dedup(NonEmptyTrimmed(texts))
  }

  /** A string is a LeetCode tag exactly when it is non-empty and some link's text
      trims to it. */
  lemma LeetCodeTagsMembership(texts: seq<string>, t: string)
    ensures t in LeetCodeTags(texts) <==>
      t != "" && exists i :: 0 <= i < |texts| && Trim(texts[i]) == t
  {
    if t in LeetCodeTags(texts) {
      NonEmptyTrimmedComeFromTexts(texts, t);
    } else if t != "" && exists i :: 0 <= i < |texts| && Trim(texts[i]) == t {
      var i :| 0 <= i < |texts| && Trim(texts[i]) == t;
      NonEmptyTrimmedKeepTexts(texts, i);
    }
  }

  // ---------------------------------------------------------------------------
  // The scrapers and the message handler
  // ---------------------------------------------------------------------------

  /** `scrapeCodeforcesData`. */
  method ScrapeCodeforcesData(page: Page) returns (data: ScrapedData)
    ensures data == ScrapedData(CodeforcesTitle(page.cfTitleText), CodeforcesTags(page.cfTagTexts), None)
  {
    var title := CodeforcesTitle(page.cfTitleText);
    var texts := page.cfTagTexts;
    var tags: seq<string> := [];
    var i := 0;
    while i < |texts|
      invariant 0 <= i <= |texts|
      invariant tags == CodeforcesTags(texts[..i])
    {
      var tagText := Trim(texts[i]);
      assert texts[..i + 1][..i] == texts[..i];
      if tagText != "" && tagText[0] != '*' {
        tags := tags + [tagText];
      }
      i := i + 1;
    }
    assert texts[..i] == texts;
    data := ScrapedData(title, tags, None);
  }

  /** `scrapeLeetcodeData`: the title is always `None`; the tags go through a set that
      remembers insertion order, modelled by its members and its order. */
  method ScrapeLeetcodeData(page: Page) returns (data: ScrapedData)
    ensures data == ScrapedData(None, LeetCodeTags(page.lcTagTexts), None)
  {
    var texts := page.lcTagTexts;
    var members: set<string> := {};
    var order: seq<string> := [];
    var i := 0;
    while i < |texts|
      invariant 0 <= i <= |texts|
      invariant order == Dedup(NonEmptyTrimmed(texts[..i]))
      invariant forall t :: t in members <==> t in order
    {
      var tagText := Trim(texts[i]);
      assert texts[..i + 1][..i] == texts[..i];
      if tagText != "" {
        if tagText !in members {
          members := members + {tagText};
          order := order + [tagText];
        }
      }
      i := i + 1;
    }
    assert texts[..i] == texts;
    data := ScrapedData(None, order, None);
  }

  /** The message listener: only a details request gets a response. An unsupported
      platform yields no title and no tags; `failure` is the message of an error the
      platform's scraper throws, if it throws one, which is reported with no title and
      no tags. */
  method HandleMessage(messageType: string, page: Page, failure: Option<string>)
    returns (response: Option<ScrapedData>)
    ensures response.Some? <==> messageType == GetProblemDetails
    ensures response.Some? && GetPlatform(page.hostname).None? ==>
      response.value == ScrapedData(None, [], None)
    ensures response.Some? && GetPlatform(page.hostname).Some? && failure.Some? ==>
      response.value == ScrapedData(None, [], failure)
    ensures response.Some? && GetPlatform(page.hostname) == Some(CF) && failure.None? ==>
      response.value == ScrapedData(CodeforcesTitle(page.cfTitleText), CodeforcesTags(page.cfTagTexts), None)
    ensures response.Some? && GetPlatform(page.hostname) == Some(LC) && failure.None? ==>
      response.value == ScrapedData(None, LeetCodeTags(page.lcTagTexts), None)
    ensures response.Some? ==> response.value.error.None? || response.value.tags == []
    ensures response.Some? ==> forall t :: t in response.value.tags ==> t != ""
  {
    if messageType != GetProblemDetails {
      return None;
    }
    var platform := GetPlatform(page.hostname);
    var data := ScrapedData(None, [], None);
    if failure.Some? && platform.Some? {
      data := ScrapedData(None, [], failure);
    } else if platform == Some(CF) {
      data := ScrapeCodeforcesData(page);
    } else if platform == Some(LC) {
      data := ScrapeLeetcodeData(page);
    }
    response := Some(data);
  }
}
