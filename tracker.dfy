/**
 The problem store and the icon-click state machine of js/background.js.

 The store is one map, persisted under a single storage key, from canonical URL to
 problem record. Every operation reads the whole map, changes it and writes it back.
 A click on the extension's icon moves the page's problem one step along
 untracked -> Unsolved -> Solved -> untracked.
 */
module Tracker {
  import opened Options
  import opened Records
  import opened Classifier

  /** How the storage calls of one operation turn out: whether the read of the stored
      map succeeds, and whether writing it back succeeds (a failed write, such as one
      over the storage quota, persists nothing). */
  datatype Io = Io(readOk: bool, writeOk: bool)

  const AllOk := Io(true, true)

  /** What an operation reports, and the stored map after it. */
  datatype Outcome = Outcome(ok: bool, problems: Problems)

  /** `getAllProblems`: the stored map, or `{}` when the read fails. */
  function Fetch(stored: Problems, readOk: bool): Problems {
    if readOk then stored else map[]
  }

  /** `getProblemData`: the record stored under `key`, if the read succeeds. */
  function Lookup(stored: Problems, key: string, readOk: bool): (r: Option<Record>)
    ensures r.Some? <==> readOk && key in stored
    ensures r.Some? ==> r.value == stored[key]
  {
    var all := Fetch(stored, readOk);
    if key in all then Some(all[key]) else None
  }

  /** `saveProblem` refuses a missing record and one whose `url` is absent or falsy.
      Keys are strings here, so a truthy `url` that is not a string is refused too. */
  predicate SaveAccepts(data: Option<Record>) {
    data.Some? && UrlKey in data.value && Truthy(data.value[UrlKey]) && data.value[UrlKey].Str?
  }

  /** The key a saved record goes to: its own `url`. */
  function SaveKey(data: Option<Record>): string
    requires SaveAccepts(data)
  {
    data.value[UrlKey].s
  }

  /** `saveProblem(data)`: the supplied fields are laid over the existing entry at
      `data.url` (a field-level merge), and the map is written back. */
  function SaveOutcome(stored: Problems, data: Option<Record>, io: Io): (out: Outcome)
    ensures !SaveAccepts(data) ==> out == Outcome(false, stored)
    ensures SaveAccepts(data) ==> out.ok == io.writeOk
    ensures !out.ok ==> out.problems == stored
    ensures out.ok ==>
      var key, before := SaveKey(data), Fetch(stored, io.readOk);
      && out.problems.Keys == before.Keys + {key}
      && out.problems[key].Keys == data.value.Keys + (if key in before then before[key].Keys else {})
      && (forall k :: k in before && k != key ==> out.problems[k] == before[k])
      && (forall f :: f in data.value ==> f in out.problems[key] && out.problems[key][f] == data.value[f])
      && (key in before ==>
            forall f :: f in before[key] && f !in data.value ==>
              f in out.problems[key] && out.problems[key][f] == before[key][f])
      && (key !in before ==> out.problems[key] == data.value)
  {
    if !SaveAccepts(data) then Outcome(false, stored)
    else
      var key := SaveKey(data);
      var all := Fetch(stored, io.readOk);
      var existing := if key in all then all[key] else map[];
      if io.writeOk then Outcome(true, all[key := existing + data.value])
      else Outcome(false, stored)
  }

  /** `removeProblem(key)`: deletes the entry if the read finds it. */
  function RemoveOutcome(stored: Problems, key: string, io: Io): (out: Outcome)
    ensures out.ok <==> io.readOk && key in stored && io.writeOk
    ensures out.problems.Keys == if out.ok then stored.Keys - {key} else stored.Keys
    ensures forall k :: k in out.problems ==> out.problems[k] == stored[k]
  {
    var all := Fetch(stored, io.readOk);
    if key in all && io.writeOk then Outcome(true, all - {key}) else Outcome(false, stored)
  }

  /** The record the first click on an untracked problem creates. */
  function NewProblem(id: string, platform: Platform, now: int): Record {
    map[UrlKey := Str(id), PlatformKey := Str(PlatformName(platform)), TitleKey := Str(id),
        TagsKey := Strs([]), StatusKey := Str(Unsolved), DateAddedKey := Time(now),
        DateSolvedKey := Null]
  }

  /** A created record sits under its own `url`, is Unsolved, and has an added date and
      a null solve date. */
  lemma NewProblemIsWellFormed(id: string, platform: Platform, now: int)
    ensures var r := NewProblem(id, platform, now);
      && HasString(r, UrlKey, id) && HasString(r, StatusKey, Unsolved)
      && r[DateAddedKey] == Time(now) && r[DateSolvedKey] == Null
  {
  }

  /** `{...current, status: "Solved", dateSolved: now}` */
  function MarkedSolved(current: Record, now: int): Record {
    current + map[StatusKey := Str(Solved), DateSolvedKey := Time(now)]
  }

  /** What one click on the icon does to the stored map. `tabUrl` is the tab's URL (empty
      when the tab has none), `parsed` what parsing it gives, `now` the clock,
      `lookupOk` whether the read of the current state succeeds, and `io` how the
      following save or remove goes. Results of save and remove are not inspected. */
  function ClickOutcome(stored: Problems, tabUrl: string, parsed: Option<Url>, now: int,
                        lookupOk: bool, io: Io): (after: Problems)
    ensures tabUrl == "" || GetProblemInfo(parsed).NotProblemPage? ==> after == stored
  {
    if tabUrl == "" then stored
    else match GetProblemInfo(parsed)
      case NotProblemPage => stored
      case ProblemPage(platform, id) =>
        var current := Lookup(stored, id, lookupOk);
        if current.None? then
          SaveOutcome(stored, Some(NewProblem(id, platform, now)), io).problems
        else if HasString(current.value, StatusKey, Unsolved) then
          SaveOutcome(stored, Some(MarkedSolved(current.value, now)), io).problems
        else if HasString(current.value, StatusKey, Solved) then
          RemoveOutcome(stored, id, io).problems
        else
          stored
  }

  class ProblemStore {
    /** The map persisted under the extension's storage key. */
    var problems: Problems

    constructor (initial: Problems)
      ensures problems == initial
    {
      problems := initial;
    }

    method GetAllProblems(readOk: bool) returns (all: Problems)
      ensures all == Fetch(problems, readOk)
    {
      if readOk {
        all := problems;
      } else {
        all := map[];
      }
    }

    method GetProblemData(key: string, readOk: bool) returns (r: Option<Record>)
      ensures r == Lookup(problems, key, readOk)
    {
      var all := GetAllProblems(readOk);
      r := if key in all then Some(all[key]) else None;
    }

    method SaveProblem(data: Option<Record>, io: Io) returns (ok: bool)
      modifies this
      ensures Outcome(ok, problems) == SaveOutcome(old(problems), data, io)
    {
      if !SaveAccepts(data) {
        return false;
      }
      var key := SaveKey(data);
      var all := GetAllProblems(io.readOk);
      var existing := if key in all then all[key] else map[];
      all := all[key := existing + data.value];
      if io.writeOk {
        problems := all;
        ok := true;
      } else {
        ok := false;
      }
    }

    method RemoveProblem(key: string, io: Io) returns (removed: bool)
      modifies this
      ensures Outcome(removed, problems) == RemoveOutcome(old(problems), key, io)
    {
      var all := GetAllProblems(io.readOk);
      if key in all {
        all := all - {key};
        if io.writeOk {
          problems := all;
          removed := true;
        } else {
          removed := false;
        }
      } else {
        removed := false;
      }
    }

    /** The icon-click handler. */
    method OnClicked(tabUrl: string, parsed: Option<Url>, now: int, lookupOk: bool, io: Io)
      modifies this
      ensures problems == ClickOutcome(old(problems), tabUrl, parsed, now, lookupOk, io)
    {
      if tabUrl == "" {
        return;
      }
      var info := GetProblemInfo(parsed);
      if info.NotProblemPage? {
        return;
      }
      var id := info.canonicalUrl;
      var current := GetProblemData(id, lookupOk);
      if current.None? {
        var _ := SaveProblem(Some(NewProblem(id, info.platform, now)), io);
      } else if HasString(current.value, StatusKey, Unsolved) {
        var _ := SaveProblem(Some(MarkedSolved(current.value, now)), io);
      } else if HasString(current.value, StatusKey, Solved) {
        var _ := RemoveProblem(id, io);
      }
    }
  }

  // ---------------------------------------------------------------------------
  // Properties of the store operations
  // ---------------------------------------------------------------------------

  /** When the read inside `saveProblem` fails, the write that follows replaces the
      whole stored map by one holding only the saved entry. */
  lemma SaveAfterFailedRead(stored: Problems, data: Option<Record>)
    requires SaveAccepts(data)
    ensures SaveOutcome(stored, data, Io(false, true)) == Outcome(true, map[SaveKey(data) := data.value])
  {
    assert map[] + data.value == data.value;
  }

  /** Every entry is stored under its own `url`. */
  predicate KeysAgree(ps: Problems) {
    forall k :: k in ps ==> HasString(ps[k], UrlKey, k)
  }

  /** Saving and removing keep every entry under its own `url`, whatever the storage does. */
  lemma StoreKeepsKeysAgreeing(stored: Problems, data: Option<Record>, key: string, io: Io)
    requires KeysAgree(stored)
    ensures KeysAgree(SaveOutcome(stored, data, io).problems)
    ensures KeysAgree(RemoveOutcome(stored, key, io).problems)
  {
  }

  // ---------------------------------------------------------------------------
  // Properties of the click state machine
  // ---------------------------------------------------------------------------

  /** The page `tabUrl`/`parsed` is a problem page with identity `id`. */
  predicate OnProblemPage(tabUrl: string, parsed: Option<Url>, id: string) {
    tabUrl != "" && GetProblemInfo(parsed).ProblemPage? && GetProblemInfo(parsed).canonicalUrl == id
  }

  /** Untracked -> Unsolved: the first click stores a new record whose title is the
      canonical URL, with no tags, status Unsolved, added now and not solved, and
      changes nothing else. */
  lemma ClickTracks(stored: Problems, tabUrl: string, parsed: Option<Url>, id: string, now: int)
    requires OnProblemPage(tabUrl, parsed, id) && id !in stored
    ensures ClickOutcome(stored, tabUrl, parsed, now, true, AllOk)
         == stored[id := NewProblem(id, GetProblemInfo(parsed).platform, now)]
  {
    var created := NewProblem(id, GetProblemInfo(parsed).platform, now);
    assert map[] + created == created;
  }

  /** Unsolved -> Solved: the second click sets the status and the solve date, keeps
      every other field of the record, and changes nothing else. */
  lemma ClickSolves(stored: Problems, tabUrl: string, parsed: Option<Url>, id: string, now: int)
    requires OnProblemPage(tabUrl, parsed, id) && id in stored
    requires HasString(stored[id], StatusKey, Unsolved) && HasString(stored[id], UrlKey, id)
    ensures ClickOutcome(stored, tabUrl, parsed, now, true, AllOk)
         == stored[id := MarkedSolved(stored[id], now)]
  {
    var updated := MarkedSolved(stored[id], now);
    assert HasString(updated, UrlKey, id);
    assert stored[id] + updated == updated;
  }

  /** Marking solved adds at most the status and solve date fields, sets them, and keeps
      every other field. */
  lemma MarkedSolvedFields(current: Record, now: int)
    ensures var r := MarkedSolved(current, now);
      && r.Keys == current.Keys + {StatusKey, DateSolvedKey}
      && HasString(r, StatusKey, Solved) && r[DateSolvedKey] == Time(now)
      && (forall f :: f in current && f != StatusKey && f != DateSolvedKey ==> r[f] == current[f])
  {
  }

  /** Solved -> untracked: the third click deletes the entry and nothing else. */
  lemma ClickUntracks(stored: Problems, tabUrl: string, parsed: Option<Url>, id: string, now: int)
    requires OnProblemPage(tabUrl, parsed, id) && id in stored && HasString(stored[id], StatusKey, Solved)
    ensures ClickOutcome(stored, tabUrl, parsed, now, true, AllOk) == stored - {id}
  {
  }

  /** A click whose write fails takes no step: the stored map is unchanged, whatever
      the reads return. */
  lemma ClickFailedWriteChangesNothing(stored: Problems, tabUrl: string, parsed: Option<Url>,
                                       now: int, lookupOk: bool, readOk: bool)
    ensures ClickOutcome(stored, tabUrl, parsed, now, lookupOk, Io(readOk, false)) == stored
  {
  }

  /** When the lookup read fails, the click takes the problem for untracked and starts
      it over: whatever its status was, the record becomes Unsolved, added now and not
      solved, with its other fields kept. */
  lemma ClickFailedLookupRestarts(stored: Problems, tabUrl: string, parsed: Option<Url>, id: string, now: int)
    requires OnProblemPage(tabUrl, parsed, id)
    ensures var existing := if id in stored then stored[id] else map[];
      ClickOutcome(stored, tabUrl, parsed, now, false, AllOk)
      == stored[id := existing + NewProblem(id, GetProblemInfo(parsed).platform, now)]
    ensures var after := ClickOutcome(stored, tabUrl, parsed, now, false, AllOk);
      && id in after
      && HasString(after[id], StatusKey, Unsolved)
      && after[id][DateAddedKey] == Time(now)
      && after[id][DateSolvedKey] == Null
  {
  }

  /** A record whose status is neither value is left alone, whatever the storage does. */
  lemma ClickIgnoresUnknownStatus(stored: Problems, tabUrl: string, parsed: Option<Url>, id: string,
                                  now: int, io: Io)
    requires OnProblemPage(tabUrl, parsed, id) && id in stored
    requires !HasString(stored[id], StatusKey, Unsolved) && !HasString(stored[id], StatusKey, Solved)
    ensures ClickOutcome(stored, tabUrl, parsed, now, true, io) == stored
  {
  }

  /** Three clicks on an untracked problem leave the stored map as it was. */
  lemma {:induction false} ThreeClicksUntrack(stored: Problems, tabUrl: string, parsed: Option<Url>,
                                              t1: int, t2: int, t3: int)
    requires tabUrl != "" && GetProblemInfo(parsed).ProblemPage?
    requires GetProblemInfo(parsed).canonicalUrl !in stored
    ensures var once := ClickOutcome(stored, tabUrl, parsed, t1, true, AllOk);
      var twice := ClickOutcome(once, tabUrl, parsed, t2, true, AllOk);
      ClickOutcome(twice, tabUrl, parsed, t3, true, AllOk) == stored
  {
    var id := GetProblemInfo(parsed).canonicalUrl;
    var created := NewProblem(id, GetProblemInfo(parsed).platform, t1);
    ClickTracks(stored, tabUrl, parsed, id, t1);
    NewProblemIsWellFormed(id, GetProblemInfo(parsed).platform, t1);
    var once := stored[id := created];
    var solved := MarkedSolved(created, t2);
    ClickSolves(once, tabUrl, parsed, id, t2);
    MarkedSolvedFields(created, t2);
    var twice := once[id := solved];
    ClickUntracks(twice, tabUrl, parsed, id, t3);
    assert twice - {id} == stored;
  }

  /** A stored record is well formed when it sits under its own `url`, carries an added
      date, and has no solve date exactly while Unsolved; a solve date is never earlier
      than the added date. */
  predicate WellFormedRecord(key: string, r: Record) {
    && HasString(r, UrlKey, key)
    && DateAddedKey in r && r[DateAddedKey].Time?
    && DateSolvedKey in r
    && ((HasString(r, StatusKey, Unsolved) && r[DateSolvedKey] == Null)
        || (HasString(r, StatusKey, Solved) && r[DateSolvedKey].Time?
            && r[DateAddedKey].t <= r[DateSolvedKey].t))
  }

  predicate WellFormed(ps: Problems) {
    forall k :: k in ps ==> WellFormedRecord(k, ps[k])
  }

  /** The clock is not behind any stored added date. */
  predicate ClockNotBehind(ps: Problems, now: int) {
    forall k :: k in ps && DateAddedKey in ps[k] && ps[k][DateAddedKey].Time? ==> ps[k][DateAddedKey].t <= now
  }

  /** Saving a record that is itself well formed under its `url` keeps the map well
      formed: the merge overwrites every field the invariant reads. */
  lemma SaveKeepsWellFormed(stored: Problems, data: Option<Record>, io: Io)
    requires WellFormed(stored) && SaveAccepts(data) && WellFormedRecord(SaveKey(data), data.value)
    ensures WellFormed(SaveOutcome(stored, data, io).problems)
  {
    var out := SaveOutcome(stored, data, io);
    if out.ok {
      var key, d := SaveKey(data), data.value;
      var r := out.problems[key];
      assert r[UrlKey] == d[UrlKey] && r[StatusKey] == d[StatusKey];
      assert r[DateAddedKey] == d[DateAddedKey] && r[DateSolvedKey] == d[DateSolvedKey];
    }
  }

  /** Clicks keep the stored map well formed, whether or not the storage calls succeed. */
  lemma ClickKeepsWellFormed(stored: Problems, tabUrl: string, parsed: Option<Url>, now: int,
                             lookupOk: bool, io: Io)
    requires WellFormed(stored) && ClockNotBehind(stored, now)
    ensures WellFormed(ClickOutcome(stored, tabUrl, parsed, now, lookupOk, io))
  {
    if tabUrl != "" && GetProblemInfo(parsed).ProblemPage? {
      var info := GetProblemInfo(parsed);
      var id := info.canonicalUrl;
      var current := Lookup(stored, id, lookupOk);
      if current.None? {
        SaveKeepsWellFormed(stored, Some(NewProblem(id, info.platform, now)), io);
      } else if HasString(current.value, StatusKey, Unsolved) {
        var updated := MarkedSolved(current.value, now);
        assert updated[UrlKey] == current.value[UrlKey];
        SaveKeepsWellFormed(stored, Some(updated), io);
      }
    }
  }
}
