/** The debug panel: one fetch per known content type, summarised entry by
    entry, plus a note on the build-time cache. */
module DebugPanel {
  import opened Wrappers
  import opened JsValue
  import opened Entries

  /** The content types the panel asks for, in this order. */
  const ContentTypes: seq<string> := ["home_page", "blog_post", "about_page", "services_page", "contact_page"]

  /** The key under which the cache note is stored. */
  const CacheInfoKey: string := "cache_info"

  /** `entry.features && entry.features.length > 0`. */
  predicate FeaturesNonEmpty(f: ListField) {
    (f.Items? && f.count > 0) || (f.TextValue? && f.text != [])
  }

  /** `checkHasContent`: which field decides, per content type. */
  function CheckHasContent(contentType: string, e: Entry): (r: bool)
    ensures r ==> contentType in ContentTypes
  {
    if contentType == "home_page" then
      HasText(e.heroTitle) || FeaturesNonEmpty(e.features) || StatsHaveText(e.statistics)
    else if contentType == "blog_post" then HasText(e.title)
    else if contentType == "about_page" || contentType == "services_page" || contentType == "contact_page" then
      HasText(e.heroTitle)
    else false
  }

  /** Content is judged by a visible character in the deciding field; an
      unknown content type never has content. */
  lemma CheckHasContentMeaning(contentType: string, e: Entry)
    ensures CheckHasContent(contentType, e) <==>
      || (contentType == "home_page" &&
            (HasVisibleChar(e.heroTitle) || FeaturesNonEmpty(e.features) || StatsHaveText(e.statistics)))
      || (contentType == "blog_post" && HasVisibleChar(e.title))
      || ((contentType == "about_page" || contentType == "services_page" || contentType == "contact_page")
            && HasVisibleChar(e.heroTitle))
  {
    HasTextIff(e.heroTitle);
    HasTextIff(e.title);
  }

  /** What `fetchEntries(type)` settled to: the entries, or a rejection. */
  datatype FetchOutcome = Fetched(entries: seq<Entry>) | Threw(error: Error)

  /** One row of the panel: uid, title or "No title", update time, content flag. */
  datatype Summary = Summary(uid: string, title: string, updatedAt: Option<int>, hasContent: bool)

  /** What the panel keeps per key. */
  datatype Report =
    | Loaded(count: nat, entries: seq<Summary>)
    | LoadFailed(error: string)
    | CacheInfo(available: bool, contentTypes: seq<string>)

  function Summarize(contentType: string, e: Entry): (r: Summary)
    ensures r.uid == e.uid && r.updatedAt == e.updatedAt
    ensures r.title == (if HasValue(e.title) then e.title.value else "No title")
    ensures r.hasContent == CheckHasContent(contentType, e)
  {
    Summary(e.uid, if HasValue(e.title) then e.title.value else "No title", e.updatedAt, CheckHasContent(contentType, e))
  }

  function SummarizeAll(contentType: string, es: seq<Entry>): (r: seq<Summary>)
    ensures |r| == |es|
    ensures forall i :: 0 <= i < |es| ==> r[i] == Summarize(contentType, es[i])
  {
    if es == [] then [] else [Summarize(contentType, es[0])] + SummarizeAll(contentType, es[1..])
  }

  /** The per-type report: a rejection is recorded with its message and does
      not affect other types; otherwise the count and one summary per entry. */
  function ReportFor(contentType: string, outcome: FetchOutcome): (r: Report)
    ensures outcome.Threw? ==> r == LoadFailed(outcome.error.message)
    ensures outcome.Fetched? ==> r.Loaded? && r.count == |outcome.entries| == |r.entries|
    ensures outcome.Fetched? ==> forall i :: 0 <= i < |r.entries| ==>
      && r.entries[i].uid == outcome.entries[i].uid
      && r.entries[i].title != []
      && (r.entries[i].hasContent <==> CheckHasContent(contentType, outcome.entries[i]))
    ensures outcome.Fetched? ==> forall i :: 0 <= i < |r.entries| ==>
      r.entries[i] == Summarize(contentType, outcome.entries[i])
  {
    match outcome
    case Threw(err) => LoadFailed(err.message)
    case Fetched(es) => Loaded(|es|, SummarizeAll(contentType, es))
  }

  /** The cache note: available iff the cache value is truthy, listing its keys then. */
  function CacheInfoFor(cache: Value): (r: Report)
    ensures r.CacheInfo?
    ensures r.available <==> JsValue.Truthy(cache)
    ensures !r.available ==> r.contentTypes == []
    ensures r.available ==> r.contentTypes == Keys(cache)
  {
    if JsValue.Truthy(cache) then CacheInfo(true, Keys(cache)) else CacheInfo(false, [])
  }

  class DebugPanel {
    var debugData: map<string, Report>
    var loading: bool

    constructor ()
      ensures debugData == map[] && !loading
    {
      debugData := map[];
      loading := false;
    }

    /** `loadDebugInfo`: every content type is fetched in turn and reported,
        whatever happened to the others, then the cache note is added. */
    method LoadDebugInfo(fetch: string -> FetchOutcome, cache: Value)
      modifies this
      ensures !loading
      ensures debugData.Keys == (set t | t in ContentTypes) + {CacheInfoKey}
      ensures forall t :: t in ContentTypes ==> debugData[t] == ReportFor(t, fetch(t))
      ensures debugData[CacheInfoKey] == CacheInfoFor(cache)
    {
      loading := true;
      var results: map<string, Report> := map[];
      for i := 0 to |ContentTypes|
        invariant results.Keys == set k | 0 <= k < i :: ContentTypes[k]
        invariant forall k :: 0 <= k < i ==> results[ContentTypes[k]] == ReportFor(ContentTypes[k], fetch(ContentTypes[k]))
      {
        var t := ContentTypes[i];
        results := results[t := ReportFor(t, fetch(t))];
      }
      results := results[CacheInfoKey := CacheInfoFor(cache)];
      debugData := results;
      loading := false;
    }
  }
}
