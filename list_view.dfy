/**
 The problem list page of html/list.js: which stored problems pass the status,
 platform and search filters, the count label above them, the order they are shown in,
 and what each problem's card shows.
 */
module ListView {
  import opened Options
  import opened Text
  import opened Records

  /** The filter state; `search` is kept lower-cased. */
  datatype Filters = Filters(status: string, platform: string, search: string)

  const All := "all"
  const DefaultFilters := Filters(All, All, "")

  /** A property read as text: its string value, or empty when it is absent or not a string. */
  function StringField(r: Record, key: string): string {
    if key in r && r[key].Str? then r[key].s else ""
  }

  /** The tag list of a record: empty when absent or not a list. */
  function TagList(r: Record): seq<string> {
    if TagsKey in r && r[TagsKey].Strs? then r[TagsKey].items else []
  }

  // ---------------------------------------------------------------------------
  // The filter predicate of applyFiltersAndRender
  // ---------------------------------------------------------------------------

  predicate StatusMatches(f: Filters, r: Record) {
    f.status == All || HasString(r, StatusKey, f.status)
  }

  predicate PlatformMatches(f: Filters, r: Record) {
    f.platform == All || HasString(r, PlatformKey, f.platform)
  }

  /** An empty search accepts everything; otherwise the term must occur in the
      lower-cased title or in the lower-cased space-joined tags. */
  predicate SearchMatches(f: Filters, r: Record) {
    || f.search == ""
    || Contains(ToLower(StringField(r, TitleKey)), f.search)
    || Contains(ToLower(Join(TagList(r), " ")), f.search)
  }

  predicate Matches(f: Filters, r: Record) {
    StatusMatches(f, r) && PlatformMatches(f, r) && SearchMatches(f, r)
  }

  /** `problemsData.filter(...)`. */
  function FilterProblems(rs: seq<Record>, f: Filters): (shown: seq<Record>)
    ensures |shown| <= |rs|
    ensures forall r :: r in shown <==> r in rs && Matches(f, r)
  {
    if rs == [] then []
    else
      var shown := FilterProblems(rs[..|rs| - 1], f);
      var r := rs[|rs| - 1];
      assert forall x :: x in rs <==> x in rs[..|rs| - 1] || x == r;
      if Matches(f, r) then shown + [r] else shown
  }

  /** Filtering keeps the original order: the result for a concatenation is the
      concatenation of the results. */
  lemma {:induction false} FilterConcat(a: seq<Record>, b: seq<Record>, f: Filters)
    ensures FilterProblems(a + b, f) == FilterProblems(a, f) + FilterProblems(b, f)
    decreases |b|
  {
    if b == [] {
      assert a + b == a;
    } else {
      var b' := b[..|b| - 1];
      assert (a + b)[..|a + b| - 1] == a + b';
      FilterConcat(a, b', f);
    }
  }

  /** The default filters show every problem, in the stored order. */
  lemma {:induction false} FilterDefaultIsIdentity(rs: seq<Record>)
    ensures FilterProblems(rs, DefaultFilters) == rs
  {
    if rs != [] {
      FilterDefaultIsIdentity(rs[..|rs| - 1]);
    }
  }

  /** Every record passes the `"all"` status and platform filters. */
  lemma AllAcceptsEvery(f: Filters, r: Record)
    ensures f.status == All ==> StatusMatches(f, r)
    ensures f.platform == All ==> PlatformMatches(f, r)
    ensures f.status != All ==> (StatusMatches(f, r) <==> StatusKey in r && r[StatusKey] == Str(f.status))
  {
  }

  // ---------------------------------------------------------------------------
  // The count label and the empty-list message of renderProblemList
  // ---------------------------------------------------------------------------

  datatype CountLabel = Showing(shown: nat, total: nat) | Total(total: nat)

  predicate FiltersActive(f: Filters) {
    f.status != All || f.platform != All || f.search != ""
  }

  /** The count label for `shown` of `total` problems. */
  function CountLabelFor(f: Filters, total: nat, shown: nat): (count: CountLabel)
    ensures count.total == total
    ensures count.Showing? ==> count.shown == shown && shown != total && FiltersActive(f)
  {
    if FiltersActive(f) && total != shown then Showing(shown, total) else Total(total)
  }

  /** For a filtered list the label reads "Showing" exactly when filters are active and
      they hide something, and then fewer problems are shown than stored. */
  lemma CountLabelOfFilter(rs: seq<Record>, f: Filters)
    ensures var shown := FilterProblems(rs, f);
      var count := CountLabelFor(f, |rs|, |shown|);
      && (count.Showing? <==> FiltersActive(f) && |shown| < |rs|)
      && (count.Showing? ==> count.shown < count.total)
      && (f == DefaultFilters ==> count == Total(|rs|))
  {
    if f == DefaultFilters {
      FilterDefaultIsIdentity(rs);
    }
  }

  /** Placeholder messages of the grid. */
  datatype Notice = Loading | NoMatches | NothingTracked | LoadFailed

  /** The message for an empty list depends only on whether anything is stored. */
  function EmptyNotice(total: nat): (notice: Notice)
    ensures notice == NothingTracked <==> total == 0
    ensures notice == NoMatches || notice == NothingTracked
  {
    if total > 0 then NoMatches else NothingTracked
  }

  // ---------------------------------------------------------------------------
  // Order: newest first by dateAdded
  // ---------------------------------------------------------------------------

  /** The comparator's key: the instant of `dateAdded`. */
  function AddedAt(r: Record): int {
    if DateAddedKey in r && r[DateAddedKey].Time? then r[DateAddedKey].t else 0
  }

  predicate NewestFirst(rs: seq<Record>) {
    forall i, j :: 0 <= i < j < |rs| ==> AddedAt(rs[i]) >= AddedAt(rs[j])
  }

  /** A record no older than the head of a newest-first list can go in front of it. */
  lemma ConsNewestFirst(x: Record, rest: seq<Record>)
    requires NewestFirst(rest) && (rest == [] || AddedAt(x) >= AddedAt(rest[0]))
    ensures NewestFirst([x] + rest)
  {
    var out := [x] + rest;
    forall i, j | 0 <= i < j < |out|
      ensures AddedAt(out[i]) >= AddedAt(out[j])
    {
      if i == 0 && j > 1 {
        assert AddedAt(rest[0]) >= AddedAt(rest[j - 1]);
      }
    }
  }

  lemma TailNewestFirst(sorted: seq<Record>)
    requires NewestFirst(sorted) && sorted != []
    ensures NewestFirst(sorted[1..])
    ensures |sorted| > 1 ==> AddedAt(sorted[0]) >= AddedAt(sorted[1])
  {
  }

  lemma ConsMultiset(sorted: seq<Record>, rest: seq<Record>, r: Record)
    requires sorted != [] && multiset(rest) == multiset(sorted[1..]) + multiset{r}
    ensures multiset([sorted[0]] + rest) == multiset(sorted) + multiset{r}
  {
    assert sorted == [sorted[0]] + sorted[1..];
  }

  /** Places `r` in front of the first record added no later than it. */
  function InsertByDate(r: Record, sorted: seq<Record>): (out: seq<Record>)
    requires NewestFirst(sorted)
    ensures NewestFirst(out)
    ensures multiset(out) == multiset(sorted) + multiset{r}
    ensures |out| == |sorted| + 1 && (out[0] == r || (sorted != [] && out[0] == sorted[0]))
  {
    if sorted == [] || AddedAt(sorted[0]) <= AddedAt(r) then
      ConsNewestFirst(r, sorted);
      [r] + sorted
    else
      TailNewestFirst(sorted);
      var rest := InsertByDate(r, sorted[1..]);
      ConsNewestFirst(sorted[0], rest);
      ConsMultiset(sorted, rest, r);
      [sorted[0]] + rest
  }

  /** The list sorted newest first: a permutation of the input. */
  function SortNewestFirst(rs: seq<Record>): (out: seq<Record>)
    ensures NewestFirst(out)
    ensures multiset(out) == multiset(rs)
  {
    if rs == [] then []
    else
      assert rs == [rs[0]] + rs[1..];
      InsertByDate(rs[0], SortNewestFirst(rs[1..]))
  }

  /** `[r]` when `r` was added at instant `d`, else empty. */
  function IfAddedOn(r: Record, d: int): seq<Record> {
    if AddedAt(r) == d then [r] else []
  }

  /** The records of `rs` added at instant `d`, in their order in `rs`. */
  function AddedOn(rs: seq<Record>, d: int): seq<Record> {
    if rs == [] then [] else IfAddedOn(rs[0], d) + AddedOn(rs[1..], d)
  }

  lemma AddedOnCons(x: Record, t: seq<Record>, d: int)
    ensures AddedOn([x] + t, d) == IfAddedOn(x, d) + AddedOn(t, d)
  {
    assert ([x] + t)[1..] == t;
  }

  /** Two records added at different instants cannot both be kept by `AddedOn`. */
  lemma IfAddedOnSwap(r: Record, x: Record, d: int, tail: seq<Record>)
    requires AddedAt(r) != AddedAt(x)
    ensures IfAddedOn(x, d) + (IfAddedOn(r, d) + tail) == IfAddedOn(r, d) + (IfAddedOn(x, d) + tail)
  {
    assert IfAddedOn(x, d) == [] || IfAddedOn(r, d) == [];
  }

  lemma InsertByDatePasses(r: Record, sorted: seq<Record>)
    requires NewestFirst(sorted) && sorted != [] && AddedAt(sorted[0]) > AddedAt(r)
    ensures NewestFirst(sorted[1..])
    ensures InsertByDate(r, sorted) == [sorted[0]] + InsertByDate(r, sorted[1..])
  {
  }

  lemma {:induction false} InsertByDateIsStable(r: Record, sorted: seq<Record>, d: int)
    requires NewestFirst(sorted)
    ensures AddedOn(InsertByDate(r, sorted), d) == IfAddedOn(r, d) + AddedOn(sorted, d)
    decreases |sorted|
  {
    if sorted == [] || AddedAt(sorted[0]) <= AddedAt(r) {
      AddedOnCons(r, sorted, d);
    } else {
      var x, t := sorted[0], sorted[1..];
      InsertByDatePasses(r, sorted);
      var rest := InsertByDate(r, t);
      calc {
        AddedOn(InsertByDate(r, sorted), d);
        AddedOn([x] + rest, d);
        { AddedOnCons(x, rest, d); }
        IfAddedOn(x, d) + AddedOn(rest, d);
        { InsertByDateIsStable(r, t, d); }
        IfAddedOn(x, d) + (IfAddedOn(r, d) + AddedOn(t, d));
        { IfAddedOnSwap(r, x, d, AddedOn(t, d)); }
        IfAddedOn(r, d) + (IfAddedOn(x, d) + AddedOn(t, d));
        { assert sorted == [x] + t; AddedOnCons(x, t, d); }
        IfAddedOn(r, d) + AddedOn(sorted, d);
      }
    }
  }

  /** The order is stable, as `Array.prototype.sort` is: problems added at the same instant
      keep their relative order. Together with `NewestFirst` and the permutation property
      this determines the result. */
  lemma {:induction false} SortNewestFirstIsStable(rs: seq<Record>, d: int)
    ensures AddedOn(SortNewestFirst(rs), d) == AddedOn(rs, d)
  {
    if rs != [] {
      SortNewestFirstIsStable(rs[1..], d);
      InsertByDateIsStable(rs[0], SortNewestFirst(rs[1..]), d);
    }
  }

  // ---------------------------------------------------------------------------
  // createProblemCard
  // ---------------------------------------------------------------------------

  const MaxShownTags := 3

  /** What a card shows: the address it opens, the platform badge, the title, the value
      whose date its "Added" line shows (`None` reads "N/A"), at most three tags, the count
      of the tags left out, and whether it reads as solved (anything else reads as pending). */
  datatype Card = Card(link: string, badge: Option<Platform>, title: string, added: Option<Value>,
                       shownTags: seq<string>, moreTags: Option<nat>, solved: bool)

  function Badge(r: Record): Option<Platform> {
    if HasString(r, PlatformKey, "CF") then Some(CF)
    else if HasString(r, PlatformKey, "LC") then Some(LC)
    else None
  }

  function CreateProblemCard(r: Record): (card: Card)
    ensures StringField(r, TitleKey) != "" ==> card.title == StringField(r, TitleKey)
    ensures StringField(r, TitleKey) == "" ==> card.title == StringField(r, UrlKey)
    ensures card.link == StringField(r, UrlKey)
    ensures card.badge == Some(CF) <==> HasString(r, PlatformKey, PlatformName(CF))
    ensures card.badge == Some(LC) <==> HasString(r, PlatformKey, PlatformName(LC))
    ensures card.added.Some? <==> DateAddedKey in r && Truthy(r[DateAddedKey])
    ensures card.added.Some? ==> card.added.value == r[DateAddedKey]
    ensures card.added.Some? && card.added.value.Time? ==> card.added.value.t == AddedAt(r)
    ensures card.shownTags <= TagList(r)
    ensures |card.shownTags| == if |TagList(r)| < MaxShownTags then |TagList(r)| else MaxShownTags
    ensures card.moreTags.Some? <==> |TagList(r)| > MaxShownTags
    ensures card.moreTags.Some? ==> |card.shownTags| + card.moreTags.value == |TagList(r)|
    ensures card.solved <==> HasString(r, StatusKey, Solved)
  {
    var title := StringField(r, TitleKey);
    var tags := TagList(r);
    Card(StringField(r, UrlKey), Badge(r),
         if title != "" then title else StringField(r, UrlKey),
         if DateAddedKey in r && Truthy(r[DateAddedKey]) then Some(r[DateAddedKey]) else None,
         if |tags| > MaxShownTags then tags[..MaxShownTags] else tags,
         if |tags| > MaxShownTags then Some(|tags| - MaxShownTags) else None,
         HasString(r, StatusKey, Solved))
  }

  /** The shown tags and the ones the `+k` marker stands for are the whole list. */
  lemma CardAccountsForEveryTag(r: Record)
    ensures var card := CreateProblemCard(r);
      card.shownTags + TagList(r)[|card.shownTags|..] == TagList(r)
      && |TagList(r)[|card.shownTags|..]| == (if card.moreTags.Some? then card.moreTags.value else 0)
  {
  }

  function CardsOf(rs: seq<Record>): (cards: seq<Card>)
    ensures |cards| == |rs|
    ensures forall i :: 0 <= i < |rs| ==> cards[i] == CreateProblemCard(rs[i])
  {
    seq(|rs|, i requires 0 <= i < |rs| => CreateProblemCard(rs[i]))
  }

  // ---------------------------------------------------------------------------
  // The page
  // ---------------------------------------------------------------------------

  /** What the problem grid holds. */
  datatype Grid = Blank | Message(notice: Notice) | Cards(cards: seq<Card>)

  /** The grid after rendering `shown` when `total` problems are stored. */
  function GridFor(total: nat, shown: seq<Record>): (grid: Grid)
    ensures grid.Message? <==> shown == []
    ensures grid.Message? ==> grid.notice == EmptyNotice(total)
    ensures grid.Cards? ==> |grid.cards| == |shown|
    ensures grid.Cards? ==> exists sorted ::
      NewestFirst(sorted) && multiset(sorted) == multiset(shown) && grid.cards == CardsOf(sorted)
  {
    if shown == [] then Message(EmptyNotice(total))
    else
      var sorted := SortNewestFirst(shown);
      assert |sorted| == |multiset(sorted)| == |multiset(shown)| == |shown|;
      Cards(CardsOf(sorted))
  }

  /** The cards of a reordering of `shown` are the cards of `shown`. */
  lemma CardsOfReordering(shown: seq<Record>, sorted: seq<Record>)
    requires multiset(sorted) == multiset(shown)
    ensures forall r :: r in shown ==> CreateProblemCard(r) in CardsOf(sorted)
    ensures forall c :: c in CardsOf(sorted) ==> exists r :: r in shown && c == CreateProblemCard(r)
  {
    var cards := CardsOf(sorted);
    forall r | r in shown
      ensures CreateProblemCard(r) in cards
    {
      assert r in multiset(shown);
      var i :| 0 <= i < |sorted| && sorted[i] == r;
      assert cards[i] == CreateProblemCard(r);
    }
    forall c | c in cards
      ensures exists r :: r in shown && c == CreateProblemCard(r)
    {
      var i :| 0 <= i < |cards| && cards[i] == c;
      assert sorted[i] in multiset(shown);
    }
  }

  /** The grid after filtering shows a card for every stored problem that passes the
      filters and no card for anything else. */
  lemma GridShowsExactlyTheMatches(rs: seq<Record>, f: Filters)
    ensures var grid := GridFor(|rs|, FilterProblems(rs, f));
      && (grid.Message? <==> forall r :: r in rs ==> !Matches(f, r))
      && (grid.Cards? ==> forall r :: r in rs && Matches(f, r) ==> CreateProblemCard(r) in grid.cards)
      && (grid.Cards? ==> forall c :: c in grid.cards ==> exists r :: r in rs && Matches(f, r) && c == CreateProblemCard(r))
  {
    var shown := FilterProblems(rs, f);
    if shown != [] {
      CardsOfReordering(shown, SortNewestFirst(shown));
      assert shown[0] in rs && Matches(f, shown[0]);
    }
  }

  class ListPage {
    /** Every stored problem, in the order the stored map lists them. */
    var problemsData: seq<Record>
    var filters: Filters
    /** The count label; `None` until the first render. */
    var countLabel: Option<CountLabel>
    var grid: Grid

    constructor ()
      ensures problemsData == [] && filters == DefaultFilters && countLabel == None && grid == Blank
    {
      problemsData := [];
      filters := DefaultFilters;
      countLabel := None;
      grid := Blank;
    }

    /** `renderProblemList`: label, then either the empty message or one card per problem,
        newest first. */
    method RenderProblemList(toRender: seq<Record>)
      modifies this
      ensures problemsData == old(problemsData) && filters == old(filters)
      ensures countLabel == Some(CountLabelFor(filters, |problemsData|, |toRender|))
      ensures grid == GridFor(|problemsData|, toRender)
    {
      grid := Blank;
      countLabel := Some(CountLabelFor(filters, |problemsData|, |toRender|));
      if |toRender| == 0 {
        grid := Message(EmptyNotice(|problemsData|));
      } else {
        var sorted := SortNewestFirst(toRender);
        var cards: seq<Card> := [];
        var i := 0;
        while i < |sorted|
          invariant 0 <= i <= |sorted|
          invariant cards == CardsOf(sorted[..i])
        {
          cards := cards + [CreateProblemCard(sorted[i])];
          i := i + 1;
        }
        assert sorted[..i] == sorted;
        grid := Cards(cards);
      }
    }

    /** `applyFiltersAndRender`. */
    method ApplyFiltersAndRender()
      modifies this
      ensures problemsData == old(problemsData) && filters == old(filters)
      ensures countLabel == Some(CountLabelFor(filters, |problemsData|, |FilterProblems(problemsData, filters)|))
      ensures grid == GridFor(|problemsData|, FilterProblems(problemsData, filters))
    {
      var shown := FilterProblems(problemsData, filters);
      RenderProblemList(shown);
    }

    /** A click on a status pill. */
    method SelectStatus(status: string)
      modifies this
      ensures filters == old(filters).(status := status) && problemsData == old(problemsData)
      ensures countLabel == Some(CountLabelFor(filters, |problemsData|, |FilterProblems(problemsData, filters)|))
      ensures grid == GridFor(|problemsData|, FilterProblems(problemsData, filters))
    {
      filters := filters.(status := status);
      ApplyFiltersAndRender();
    }

    /** A choice in the platform dropdown. */
    method SelectPlatform(platform: string)
      modifies this
      ensures filters == old(filters).(platform := platform) && problemsData == old(problemsData)
      ensures countLabel == Some(CountLabelFor(filters, |problemsData|, |FilterProblems(problemsData, filters)|))
      ensures grid == GridFor(|problemsData|, FilterProblems(problemsData, filters))
    {
      filters := filters.(platform := platform);
      ApplyFiltersAndRender();
    }

    /** Typing in the search box: the term is stored lower-cased. */
    method SearchInput(text: string)
      modifies this
      ensures filters == old(filters).(search := ToLower(text)) && problemsData == old(problemsData)
      ensures countLabel == Some(CountLabelFor(filters, |problemsData|, |FilterProblems(problemsData, filters)|))
      ensures grid == GridFor(|problemsData|, FilterProblems(problemsData, filters))
    {
      filters := filters.(search := ToLower(text));
      ApplyFiltersAndRender();
    }

    /** `loadAndDisplayProblems`: `stored` holds the stored records in the map's order,
        or `None` when reading storage fails. */
    method LoadAndDisplayProblems(stored: Option<seq<Record>>)
      modifies this
      ensures filters == old(filters)
      ensures stored.None? ==> problemsData == old(problemsData) && countLabel == old(countLabel) && grid == Message(LoadFailed)
      ensures stored.Some? ==>
        && problemsData == stored.value
        && countLabel == Some(CountLabelFor(filters, |problemsData|, |FilterProblems(problemsData, filters)|))
        && grid == GridFor(|problemsData|, FilterProblems(problemsData, filters))
    {
      grid := Message(Loading);
      if stored.None? {
        grid := Message(LoadFailed);
      } else {
        problemsData := stored.value;
        ApplyFiltersAndRender();
      }
    }
  }
}
