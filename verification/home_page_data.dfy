/** The home-page data hook: the selection of the home-page entry from the
    fetched list, and the module-level cache shared by every mounted hook. */
module HomePageData {
  import opened Wrappers
  import opened Entries
  import opened Ordering

  /** src/hooks/useHomePageData.js lines 85-101: hero text, a non-empty `features` array, a statistics value
      with text, or CTA text. Whitespace-only strings do not count. */
  function HasHomeContent(e: Entry): (r: bool)
    ensures r <==>
      || HasVisibleChar(e.heroTitle) || HasVisibleChar(e.heroSubtitle) || HasVisibleChar(e.heroBadge)
      || (e.features.Items? && e.features.count > 0)
      || StatsHaveVisibleChar(e.statistics)
      || HasVisibleChar(e.ctaPrimaryText) || HasVisibleChar(e.ctaSecondaryText)
  {
    HasTextIff(e.heroTitle);
    HasTextIff(e.heroSubtitle);
    HasTextIff(e.heroBadge);
    StatsHaveTextIff(e.statistics);
    HasTextIff(e.ctaPrimaryText);
    HasTextIff(e.ctaSecondaryText);
    || HasText(e.heroTitle) || HasText(e.heroSubtitle) || HasText(e.heroBadge)
    || (e.features.Items? && e.features.count > 0)
    || StatsHaveText(e.statistics)
    || HasText(e.ctaPrimaryText) || HasText(e.ctaSecondaryText)
  }

  /** `s.findIndex(p)` as an option: the first position whose element satisfies p. */
  function FirstSatisfying<T>(s: seq<T>, p: T -> bool): (r: Option<nat>)
    ensures r.Some? ==> r.value < |s| && p(s[r.value])
    ensures r.Some? ==> forall k :: 0 <= k < r.value ==> !p(s[k])
    ensures r.None? ==> forall k :: 0 <= k < |s| ==> !p(s[k])
  {
    if s == [] then None
    else if p(s[0]) then Some(0)
    else match FirstSatisfying(s[1..], p)
      case Some(i) => Some(i + 1)
      case None => None
  }

  /** The first element satisfying p is also the first, among those sharing
      its key, to satisfy p. */
  lemma {:induction false} FirstSatisfyingWithKey<T>(s: seq<T>, p: T -> bool, key: T -> int, i: nat)
    requires FirstSatisfying(s, p) == Some(i)
    ensures i < |s| && FirstWithKey(s, p, key, key(s[i])) == Some(s[i])
  {
    if i > 0 {
      assert !p(s[0]);
      assert FirstSatisfying(s[1..], p) == Some(i - 1);
      FirstSatisfyingWithKey(s[1..], p, key, i - 1);
    }
  }

  /** `find` with the has-content test: the first position whose entry has content. */
  function FirstWithContent(s: seq<Entry>): (r: Option<nat>)
    ensures r.Some? ==> r.value < |s| && HasHomeContent(s[r.value])
    ensures r.Some? ==> forall k :: 0 <= k < r.value ==> !HasHomeContent(s[k])
    ensures r.None? ==> forall k :: 0 <= k < |s| ==> !HasHomeContent(s[k])
  {
    FirstSatisfying(s, HasHomeContent)
  }

  /** src/hooks/useHomePageData.js lines 83-107 on the sorted list: the first entry with content, else the first entry. */
  function SelectHomeEntry(sorted: seq<Entry>): (r: Option<Entry>)
    ensures r.None? <==> sorted == []
    ensures r.Some? ==> r.value in sorted
    ensures (exists k :: 0 <= k < |sorted| && HasHomeContent(sorted[k])) ==>
      exists i :: 0 <= i < |sorted| && r.value == sorted[i] && HasHomeContent(sorted[i])
        && forall k :: 0 <= k < i ==> !HasHomeContent(sorted[k])
    ensures sorted != [] && (forall k :: 0 <= k < |sorted| ==> !HasHomeContent(sorted[k])) ==>
      r.value == sorted[0]
  {
    if sorted == [] then None
    else match FirstWithContent(sorted)
      case Some(i) => Some(sorted[i])
      case None => Some(sorted[0])
  }

  /** `fetchHomePageData` once `fetchEntries` has answered: null for a missing
      or empty list; otherwise the list is sorted in place, most recent first,
      and the first entry with content is chosen, else the most recent one. */
  method FetchHomePageData(entries: array?<Entry>) returns (r: Option<Entry>)
    modifies entries
    ensures entries == null ==> r == None
    ensures entries != null ==> entries[..] == SortDesc(old(entries[..]), Recency)
    ensures entries != null ==> r == SelectHomeEntry(entries[..])
  {
    if entries == null {
      return None;
    }
    if entries.Length == 0 {
      return None;
    }
    SortInPlace(entries, Recency);
    r := SelectHomeEntry(entries[..]);
  }

  /** Sorting keeps exactly the same entries. */
  lemma SortedSameEntries(s: seq<Entry>)
    ensures forall e :: e in s <==> e in SortDesc(s, Recency)
  {
    var sorted := SortDesc(s, Recency);
    assert multiset(s) == multiset(sorted);
    forall e ensures e in s <==> e in sorted {
      assert e in s <==> e in multiset(s);
      assert e in sorted <==> e in multiset(sorted);
    }
  }

  /** The entry at the first position with content is at least as recent as
      every entry with content, on a list sorted most recent first. */
  lemma FirstWithContentIsLatest(sorted: seq<Entry>, i: nat)
    requires SortedDesc(sorted, Recency)
    requires FirstWithContent(sorted) == Some(i)
    ensures forall e :: e in sorted && HasHomeContent(e) ==> Recency(e) <= Recency(sorted[i])
  {
    forall e | e in sorted && HasHomeContent(e)
      ensures Recency(e) <= Recency(sorted[i])
    {
      var m :| 0 <= m < |sorted| && sorted[m] == e;
      assert i <= m;
    }
  }

  /** On a list sorted most recent first, the selection is an element of the
      list, and when some entry has content it is the latest such entry. */
  lemma SelectFromSorted(sorted: seq<Entry>)
    requires SortedDesc(sorted, Recency)
    ensures SelectHomeEntry(sorted).None? <==> sorted == []
    ensures SelectHomeEntry(sorted).Some? ==> SelectHomeEntry(sorted).value in sorted
    ensures (exists e :: e in sorted && HasHomeContent(e)) ==>
      var r := SelectHomeEntry(sorted).value;
      HasHomeContent(r) && forall e :: e in sorted && HasHomeContent(e) ==> Recency(e) <= Recency(r)
    ensures (forall e :: e in sorted ==> !HasHomeContent(e)) ==>
      SelectHomeEntry(sorted) == if sorted == [] then None else Some(sorted[0])
  {
    match FirstWithContent(sorted)
    case Some(i) =>
      FirstWithContentIsLatest(sorted, i);
    case None =>
      assert forall e :: e in sorted ==> !HasHomeContent(e);
  }

  /** With content present, the selection on the sorted list is the first
      entry, in the original order, among the entries with content that share
      its recency. */
  lemma SelectionFirstAmongTies(s: seq<Entry>)
    requires exists e :: e in s && HasHomeContent(e)
    ensures var r := SelectHomeEntry(SortDesc(s, Recency));
      r.Some? && Some(r.value) == FirstWithKey(s, HasHomeContent, Recency, Recency(r.value))
  {
    var sorted := SortDesc(s, Recency);
    SortedSameEntries(s);
    var e :| e in s && HasHomeContent(e);
    assert e in sorted;
    match FirstWithContent(sorted)
    case Some(i) =>
      FirstSatisfyingWithKey(sorted, HasHomeContent, Recency, i);
      SortKeepsFirstWithKey(s, HasHomeContent, Recency, Recency(sorted[i]));
    case None =>
      assert false;
  }

  /** The chosen home-page entry: none only for an empty list; otherwise an
      element of the list; when some entry has content, an entry with content
      of the greatest recency, and the first such in input order; else the
      latest entry (first in list order among ties). */
  lemma HomeSelection(s: seq<Entry>)
    ensures var r := SelectHomeEntry(SortDesc(s, Recency));
      && (r.None? <==> s == [])
      && (r.Some? ==> r.value in s)
      && ((exists e :: e in s && HasHomeContent(e)) ==>
            && HasHomeContent(r.value)
            && (forall e :: e in s && HasHomeContent(e) ==> Recency(e) <= Recency(r.value))
            && Some(r.value) == FirstWithKey(s, HasHomeContent, Recency, Recency(r.value)))
      && (r.Some? && (forall e :: e in s ==> !HasHomeContent(e)) ==>
            r.value == s[FirstMaxIndex(s, Recency)])
  {
    var sorted := SortDesc(s, Recency);
    SortedSameEntries(s);
    SelectFromSorted(sorted);
    if s != [] {
      MostRecentFirst(s);
    }
    if exists e :: e in s && HasHomeContent(e) {
      SelectionFirstAmongTies(s);
    }
  }

  /** The module-level `cachedHomePageData` and `loadingPromise`; the pending
      promise is represented only by whether one exists. */
  class HomePageCache {
    var cachedHomePageData: Option<Entry>
    var loadingPromise: bool

    constructor ()
      ensures cachedHomePageData == None && !loadingPromise
    {
      cachedHomePageData := None;
      loadingPromise := false;
    }
  }

  /** One mounted `useHomePageData` hook: its state over the shared cache. */
  class HomePageHook {
    const cache: HomePageCache
    var homePageData: Option<Entry>
    var loading: bool

    constructor (cache: HomePageCache)
      ensures this.cache == cache
      ensures homePageData == cache.cachedHomePageData && loading == cache.cachedHomePageData.None?
    {
      this.cache := cache;
      homePageData := cache.cachedHomePageData;
      loading := cache.cachedHomePageData.None?;
    }

    /** `loadHomePageData` given the list `fetchEntries` would return: cached
        data is used without fetching; otherwise the fetched selection is
        stored in the cache. Loading ends and no promise is left pending. */
    method LoadHomePageData(entries: array?<Entry>) returns (fetched: bool)
      requires !cache.loadingPromise
      modifies this, cache, entries
      ensures !loading && !cache.loadingPromise
      ensures fetched <==> old(cache.cachedHomePageData).None?
      ensures !fetched ==>
        && homePageData == old(cache.cachedHomePageData)
        && cache.cachedHomePageData == old(cache.cachedHomePageData)
        && (entries != null ==> entries[..] == old(entries[..]))
      ensures fetched ==>
        && cache.cachedHomePageData == homePageData
        && (entries == null ==> homePageData == None)
        && (entries != null ==> entries[..] == SortDesc(old(entries[..]), Recency)
                                && homePageData == SelectHomeEntry(entries[..]))
    {
      if cache.cachedHomePageData.Some? {
        homePageData := cache.cachedHomePageData;
        loading := false;
        return false;
      }
      cache.loadingPromise := true;
      var data := FetchHomePageData(entries);
      cache.cachedHomePageData := data;
      homePageData := data;
      loading := false;
      cache.loadingPromise := false;
      fetched := true;
    }

    /** The `cs:data-updated` handler: clears the cache and any pending
        promise, then loads again, which therefore always fetches. */
    method HandleContentUpdate(entries: array?<Entry>) returns (fetched: bool)
      modifies this, cache, entries
      ensures fetched && !loading && !cache.loadingPromise
      ensures cache.cachedHomePageData == homePageData
      ensures entries == null ==> homePageData == None
      ensures entries != null ==> entries[..] == SortDesc(old(entries[..]), Recency)
                                  && homePageData == SelectHomeEntry(entries[..])
    {
      cache.cachedHomePageData := None;
      cache.loadingPromise := false;
      loading := true;
      fetched := LoadHomePageData(entries);
    }
  }
}
