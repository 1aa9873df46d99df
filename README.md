# Upsolve Tracker — a Dafny model

Upsolve Tracker is a browser extension for keeping a list of competitive-programming
problems to come back to. Clicking the extension's icon on a Codeforces or LeetCode
problem page moves that problem one step along *untracked → Unsolved → Solved →
untracked*. The problems live in one map in the browser's synced storage, keyed by the
problem's canonical URL. A list page shows them as cards, with status, platform and
text filters. A content script answers requests for the title and tags shown on the
current page.

The model has seven modules:

- `Options` holds the usual option type.
- `Text` covers string operations with the semantics of JavaScript's `trim`,
  `includes`, `endsWith` and `join`, and of `toLowerCase` on ASCII letters.
- `Records` defines a problem record as a map from property names to JSON values.
- `Classifier` models `getProblemInfo` in `js/background.js`. It decides whether a
  parsed URL is a problem page, and computes its canonical URL.
- `Tracker` models the storage functions and the icon-click handler of
  `js/background.js`. The stored map is the field of a `ProblemStore` class; each
  storage function is a method on it. Each method is specified by a function of the
  old map and of the outcome of the storage calls.
- `Scraper` models `js/content_script.js`. Its two scraping loops are methods proved
  against the functions `CodeforcesTags` and `LeetCodeTags`.
- `ListView` models `html/list.js`. It covers the filter predicate, the count label,
  the newest-first order and the card contents. The page state is a `ListPage` class
  whose methods are the page's event handlers.

The main results:

- **Classification**
  - The Codeforces pattern is decided exactly as the regular expression reads.
  - The LeetCode slug is exactly the regular expression's capture.
  - Query and fragment never change a problem's identity. This is structural: the
    classifier reads only the origin, host name and path of the parsed URL.
- **Storage**
  - A save merges the given fields over the stored record and keeps every other entry.
  - A read failure during a save replaces the whole map with the one record.
- **Clicks**
  - When its storage calls succeed, each click takes the documented step, and three
    clicks on an untracked problem restore the stored map.
  - A click whose write fails changes nothing. A click whose lookup read fails starts
    the problem over as Unsolved, even when it was Solved.
  - Clicks keep every stored record well formed, even when storage calls fail, provided
    the clock is not behind any stored added date.
- **Content script and list page**
  - The LeetCode tags are the distinct non-empty trimmed link texts, in first-occurrence
    order.
  - The list shows exactly the filtered problems.
  - The order is newest first, and it is a stable permutation of the filtered problems.

## Model

| member | source | states |
|---|---|---|
| `Text.Trim` | js/content_script.js:21 | the result has no white space at either end and is the slice of the input that remains after removing the leading and trailing white space |
| `Text.ToLower` | html/list.js:291 | lower-casing keeps the length and maps each character through the ASCII case map |
| `Text.ContainsAt` | html/list.js:127 | `includes` is true when the term occurs at some offset |
| `Text.ContainsOccurs` | html/list.js:127 | `includes` is true only when the term occurs at some offset |
| `Text.ContainsIffOccurs` | html/list.js:127 | `includes` is true exactly when the term occurs at some offset |
| `Text.EndsWithContains` | js/content_script.js:4 | a host name that ends with a domain also contains it |
| `Classifier.DigitsThenProblemCodeIsPattern` | js/background.js:14 | the greedy scan of a digit run followed by `/problem/` and a letter or digit accepts exactly the strings that some digit split of the regular expression accepts |
| `Classifier.CodeforcesPathMatchesIsPattern` | js/background.js:13-15 | the path test accepts exactly the paths the Codeforces regular expression (anchored at the start, `i` flag) matches |
| `Classifier.LeetCodeSlug` | js/background.js:32-35 | a found slug is non-empty and `/problems/` + slug is a prefix of the path |
| `Classifier.LeetCodeSlugIsCapture` | js/background.js:32-37 | the slug found is exactly the regular expression's capture: a maximal non-empty run of letters, digits and hyphens after `/problems/` |
| `Classifier.GetProblemInfo` | js/background.js:4-51 | an unparsable URL is not a problem page; a problem's canonical URL starts with the origin; a Codeforces hit has a host ending in `codeforces.com`; a LeetCode hit has a host ending in `leetcode.com` and an identity of the form origin + `/problems/` + non-empty slug + `/` |
| `Classifier.HostsExclusive` | js/background.js:12-31 | no host name ends with both `codeforces.com` and `leetcode.com`, so the first match decides the platform |
| `Classifier.CodeforcesClassification` | js/background.js:12-24 | a page is a Codeforces problem exactly when its host ends with `codeforces.com` and its path matches the pattern; its identity is origin + full path |
| `Classifier.CodeforcesPathDistinguishes` | js/background.js:16-18 | two Codeforces problem pages on one origin with different paths get different identities |
| `Classifier.IgnoresQueryAndHash` | js/background.js:16-18 | changing the query string or the fragment never changes the classification; this holds by construction, since the classifier reads only the origin, host name and path, and the splitting of a URL into those parts is not modelled |
| `Classifier.SlugPathCaptures` | js/background.js:32 | `/problems/` + slug + a suffix that is empty or starts outside the slug class captures that slug |
| `Classifier.LeetCodeClassification` | js/background.js:31-44 | a LeetCode host with a captured slug gives the identity origin + `/problems/` + slug + `/` |
| `Classifier.LeetCodeHitCapturesSlug` | js/background.js:31-44 | conversely, a LeetCode problem page has a host ending in `leetcode.com` and a path that captures a slug, and its identity is origin + `/problems/` + that slug + `/` |
| `Classifier.LeetCodePathWithoutSlugRejected` | js/background.js:31-50 | a LeetCode host whose path the pattern does not match is not a problem page |
| `Classifier.LeetCodeIdIgnoresSuffix` | js/background.js:27-38 | two LeetCode paths with the same slug, such as `/description/` and `/submissions/` pages, get the same identity |
| `Classifier.ForeignHostIsNotProblemPage` | js/background.js:46-50 | an unparsable URL, or a host ending in neither domain, is not a problem page |
| `Classifier.ContestPathMatches` | js/background.js:10-14 | every `/contest/{digits}/problem/{code}...` path matches |
| `Classifier.GymPathMatches` | js/background.js:11-14 | every `/gym/{digits}/problem/{code}...` path matches |
| `Classifier.ProblemsetIdRejected` | js/background.js:9-14 | `/problemset/problem/{digits}...` matches none of the three alternatives |
| `Classifier.ProblemsetProblemAccepted` | js/background.js:9-14 | `/problemset/problem/problem/{code}...` matches the pattern |
| `Classifier.ContestExample` | js/background.js:10-24 | a contest URL is a Codeforces problem identified by origin + path, whatever its query and fragment |
| `Classifier.ProblemsetExamples` | js/background.js:9-24 | `/problemset/problem/1234/A` is not recognised, and `/problemset/problem/problem/A` is |
| `Classifier.LeetCodeExample` | js/background.js:28-44 | a `/description/` URL is identified by origin + `/problems/two-sum/` |
| `Classifier.ForeignHostExample` | js/background.js:46-50 | a page on another host is not a problem page, whatever its path |
| `Tracker.Lookup` | js/background.js:66-69 | a record is found exactly when the read succeeds and the key is stored, and it is the stored record |
| `Tracker.SaveOutcome` | js/background.js:71-95 | data without a non-empty string `url` is refused and nothing changes; otherwise the result is the write's success; a failed save changes nothing; a successful one stores the map that was read, with the key added, every other entry kept, and under the key a record whose fields are exactly the given ones and those of the existing record, the given values overwriting the existing ones |
| `Tracker.RemoveOutcome` | js/background.js:97-113 | removal succeeds exactly when the read succeeds, the key is stored and the write succeeds; it then deletes that key only, and otherwise changes nothing |
| `Tracker.ClickOutcome` | js/background.js:116-131 | a tab without a URL, or a page that is not a problem page, leaves the store unchanged |
| `Tracker.ProblemStore.GetAllProblems` | js/background.js:56-64 | returns the stored map, or the empty map when the read fails |
| `Tracker.ProblemStore.GetProblemData` | js/background.js:66-69 | returns the record stored under the key, or nothing when it is absent or the read fails |
| `Tracker.ProblemStore.SaveProblem` | js/background.js:71-95 | the reported result and the new stored map are those of `SaveOutcome` on the old map |
| `Tracker.ProblemStore.RemoveProblem` | js/background.js:97-113 | the reported result and the new stored map are those of `RemoveOutcome` on the old map |
| `Tracker.ProblemStore.OnClicked` | js/background.js:116-180 | the new stored map is `ClickOutcome` of the old map, the page, the clock and the storage outcomes |
| `Tracker.SaveAfterFailedRead` | js/background.js:77-85 | when the read inside a save fails and the write succeeds, the stored map becomes the single saved record: every other problem is lost |
| `Tracker.StoreKeepsKeysAgreeing` | js/background.js:76-102 | if every stored record's `url` equals its key, that stays true after any save or removal |
| `Tracker.ClickTracks` | js/background.js:141-155 | a click on an untracked problem stores the new record under its canonical URL and changes no other entry |
| `Tracker.NewProblemIsWellFormed` | js/background.js:144-153 | the new record's `url` is the canonical URL, its status is Unsolved, it was added now and its `dateSolved` is null |
| `Tracker.ClickSolves` | js/background.js:156-165 | a click on an Unsolved problem, for a record stored under its own `url`, replaces its record by the record marked solved now, and changes no other entry |
| `Tracker.MarkedSolvedFields` | js/background.js:159-163 | marking solved sets the status to Solved and the solve date to now, adds no other field, and keeps every other field |
| `Tracker.ClickUntracks` | js/background.js:166-170 | a click on a Solved problem deletes exactly that entry and keeps every other one |
| `Tracker.ClickIgnoresUnknownStatus` | js/background.js:171-174 | a record with any other status is left alone |
| `Tracker.ClickFailedWriteChangesNothing` | js/background.js:139-174 | a click whose write fails leaves the stored map unchanged, whatever the reads return |
| `Tracker.ClickFailedLookupRestarts` | js/background.js:139-154 | when the lookup read fails, the click merges a fresh record over the stored one: the problem becomes Unsolved, added now and not solved, other fields and entries kept |
| `Tracker.ThreeClicksUntrack` | js/background.js:141-170 | three clicks on an untracked problem give back the original stored map |
| `Tracker.SaveKeepsWellFormed` | js/background.js:76-85 | saving a record that is itself well formed under its `url` keeps every stored record well formed, whatever the storage calls do |
| `Tracker.ClickKeepsWellFormed` | js/background.js:139-174 | if every record sits under its own `url`, has an added date, and has a null solve date exactly while Unsolved and a solve date no earlier than the added date when Solved, a click keeps it so, whether or not the storage calls succeed, provided the clock is not behind the stored dates |
| `Scraper.GetPlatformByOccurrence` | js/content_script.js:3-10 | `getPlatform` gives Codeforces exactly when `codeforces.com` occurs in the host name, LeetCode exactly when `leetcode.com` occurs and `codeforces.com` does not, and no platform exactly when neither occurs |
| `Scraper.GetPlatformIsSubstringTest` | js/content_script.js:3-10 | a host containing `codeforces.com` is Codeforces; one containing `leetcode.com` but not `codeforces.com` is LeetCode |
| `Scraper.GetPlatformOnClassifiedHosts` | js/content_script.js:3-10 | a host ending in `codeforces.com` is Codeforces here too, and one ending in `leetcode.com` that does not contain `codeforces.com` is LeetCode |
| `Scraper.StripIndexedTitle` | js/content_script.js:21 | a title of the form index + `.` + white space + name becomes the name |
| `Scraper.StripUnindexedTitle` | js/content_script.js:21 | a title without an index prefix is kept as it is |
| `Scraper.CodeforcesTitle` | js/content_script.js:16-24 | there is a title exactly when the title element exists, and it is never longer than that element's text |
| `Scraper.CodeforcesTags` | js/content_script.js:26-33 | at most one tag per tag box; no tag is empty or starts with `*` |
| `Scraper.CodeforcesTagsConcat` | js/content_script.js:28-32 | the tags of concatenated box lists are the concatenated tags: document order is kept |
| `Scraper.CodeforcesTagsComeFromTexts` | js/content_script.js:28-32 | every tag is kept (non-empty, not a `*` rating) and is the trimmed text of some tag box |
| `Scraper.CodeforcesTagsKeepTexts` | js/content_script.js:28-32 | every tag box whose trimmed text is kept contributes that text as a tag |
| `Scraper.CodeforcesTagsMembership` | js/content_script.js:28-32 | a string is a tag exactly when it is the trimmed text of some box and is non-empty and not a `*` rating |
| `Scraper.NonEmptyTrimmed` | js/content_script.js:49-53 | at most one text per link, none of them empty |
| `Scraper.NonEmptyTrimmedConcat` | js/content_script.js:49-53 | the texts of concatenated link lists are the concatenated texts: document order is kept |
| `Scraper.NonEmptyTrimmedComeFromTexts` | js/content_script.js:49-53 | every kept text is non-empty and is the trimmed text of some link |
| `Scraper.NonEmptyTrimmedKeepTexts` | js/content_script.js:49-53 | every link whose trimmed text is non-empty contributes that text |
| `Scraper.Dedup` | js/content_script.js:46-55 | the result has no duplicates and the same members as the input |
| `Scraper.DedupFirstOccurrenceOrder` | js/content_script.js:46-55 | results appear in the order of their first occurrence in the input, as a `Set` iterates |
| `Scraper.LeetCodeTags` | js/content_script.js:45-55 | the tags are distinct, non-empty, and exactly the non-empty trimmed link texts |
| `Scraper.LeetCodeTagsMembership` | js/content_script.js:45-55 | a string is a tag exactly when it is non-empty and the trimmed text of some link |
| `Scraper.ScrapeCodeforcesData` | js/content_script.js:12-40 | the loop returns the title of `CodeforcesTitle` and the tags of `CodeforcesTags` |
| `Scraper.ScrapeLeetcodeData` | js/content_script.js:42-62 | the loop returns no title and the tags of `LeetCodeTags` |
| `Scraper.HandleMessage` | js/content_script.js:65-98 | only a `GET_PROBLEM_DETAILS` request is answered; an unknown platform gets no title and no tags; a scraper failure gets the error with no title and no tags; otherwise the platform's scraped data; an error never comes with tags, and no tag is empty |
| `ListView.FilterProblems` | html/list.js:115-130 | a problem is shown exactly when it is stored and passes the status, platform and search filters; never more problems than stored |
| `ListView.FilterConcat` | html/list.js:115 | filtering keeps the stored order |
| `ListView.FilterDefaultIsIdentity` | html/list.js:22-28 | with the initial filters every stored problem is shown, in order |
| `ListView.AllAcceptsEvery` | html/list.js:116-121 | `all` accepts every record; any other status accepts exactly the records whose status equals it |
| `ListView.CountLabelFor` | html/list.js:139-147 | the label always reports the stored total; it reads "Showing" only when filters are active and hide something |
| `ListView.CountLabelOfFilter` | html/list.js:139-147 | for a filtered list, "Showing" appears exactly when filters are active and fewer problems are shown than stored, and the initial filters always give the total |
| `ListView.EmptyNotice` | html/list.js:149-154 | an empty list says nothing is tracked exactly when nothing is stored, and otherwise that nothing matches |
| `ListView.InsertByDate` | html/list.js:156-158 | inserting into a newest-first list keeps it newest first and adds exactly the one record |
| `ListView.ConsNewestFirst` | html/list.js:156-158 | a record no older than the head of a newest-first list can go in front of it |
| `ListView.SortNewestFirst` | html/list.js:156-158 | the result is ordered by added date, newest first, and is a permutation of the input |
| `ListView.SortNewestFirstIsStable` | html/list.js:156-158 | problems added at the same instant keep their relative order |
| `ListView.CreateProblemCard` | html/list.js:166-224 | the card title is the non-empty title, else the url; the card opens the url; the platform badge is Codeforces or LeetCode exactly when `platform` is `"CF"` or `"LC"`; the "Added" line shows the date of `dateAdded` exactly when it is truthy, and reads N/A otherwise; at most three tags are shown, a prefix of the list, with `+k` exactly when there are more and k the number left out; the card reads solved exactly for status Solved |
| `ListView.CardAccountsForEveryTag` | html/list.js:201-213 | the shown tags followed by the ones the `+k` stands for are the whole tag list |
| `ListView.CardsOf` | html/list.js:159-162 | one card per problem, in order |
| `ListView.GridFor` | html/list.js:149-163 | the grid holds a message exactly when nothing is shown, and otherwise one card per shown problem: the cards of a newest-first permutation of the shown problems, in that order |
| `ListView.CardsOfReordering` | html/list.js:156-162 | reordering the problems does not change which cards appear |
| `ListView.GridShowsExactlyTheMatches` | html/list.js:110-163 | after filtering, the grid holds a card for every stored problem that passes the filters and for nothing else, and a message exactly when no problem passes |
| `ListView.ListPage.constructor` | html/list.js:20-28 | the page starts with no problems, the initial filters, no label and an empty grid |
| `ListView.ListPage.RenderProblemList` | html/list.js:134-164 | the label and grid become the count label and grid for the given problems; the data and filters are unchanged |
| `ListView.ListPage.ApplyFiltersAndRender` | html/list.js:110-132 | renders exactly the filtered problems |
| `ListView.ListPage.SelectStatus` | html/list.js:260-266 | sets the status filter only, then renders the filtered problems |
| `ListView.ListPage.SelectPlatform` | html/list.js:83-100 | sets the platform filter only, then renders the filtered problems |
| `ListView.ListPage.SearchInput` | html/list.js:290-293 | stores the lower-cased search term, then renders the filtered problems |
| `ListView.ListPage.LoadAndDisplayProblems` | html/list.js:298-313 | a failed read shows the load-error message and keeps the data; a successful one replaces the data with the stored records and renders them through the current filters |

## Left out

- URL parsing (`new URL`) is not modelled. The classifier receives the parsed parts, or `None` when parsing throws.
- `chrome.storage`, `chrome.action`, `chrome.runtime` messaging and `async` are modelled as the data they carry. Each storage call's success is a parameter, and the operations run one at a time, so interleaved clicks or tabs are not modelled.
- The error handling of the storage calls is simplified. A failed write persists nothing, and the `QUOTA_BYTES` warning only logs, so it is left out.
- Time is a parameter (`now`). ISO-8601 formatting, `toLocaleDateString` and the "Invalid Date" text are left out. `Time(t)` stands for the ISO string of instant `t`.
- The DOM is reduced to the texts the scrapers read and the label, message and cards the list page writes. This leaves out element lookup, CSS classes, the dropdown's open/close plumbing, the missing-element guard and `window.open`.
- Logging (`console.*`) is not modelled.
- `Text.ToLower` maps ASCII letters only. Full Unicode case mapping is not modelled.
- Record fields are modelled as strings, string lists, instants or null. A non-string `title` or a `tags` value that is not a list, which would make `toLowerCase` or `join` throw, is not modelled.
- `Tracker.SaveOutcome` refuses a save whose `url` is truthy but not a string, such as a list or an instant. The source saves such a record under the key `String(url)`; the model keys the stored map by string `url`s only.
- `ListView.SortNewestFirst` gives the key 0 to a record whose `dateAdded` is not an instant. For a `null` date that is the source's key as well, since `new Date(null)` is the epoch. For an absent `dateAdded`, or a string that does not parse as a date, the source compares NaN, and its order is then implementation-defined. A date string that does parse is not given its instant by the model.
- `ListView.SortNewestFirst` is a functional insertion sort on a sequence. It replaces the engine's in-place `Array.prototype.sort` on the filtered copy. The result it specifies, newest first, a permutation, and stable, is what that call promises.
- `ListView.ListPage.LoadAndDisplayProblems` receives the stored records in the order the stored map lists them. A read that throws is `None`. A throw inside rendering, such as from a non-string title, is not modelled.
- The icon badge and any presence indicator are not implemented in the code (a TODO), so they are not modelled.
- Where the code and the extension's documented behaviour disagree, the model follows the code:
  - A new record's title is the canonical URL. The code has no scraped or slug-derived title, and no merge of scraped data into the record; the background script never sends the details request.
  - A new record stores `dateSolved: null` rather than leaving it absent.
  - The LeetCode slug keeps its case as captured.
  - A Codeforces identity is origin + the full path, not only the matched prefix.
  - Codeforces tags are not deduplicated.
  - `/problemset/problem/{contest}/{code}` URLs are not recognised, because the pattern as written requires `/problem/` straight after `problemset/problem`.
