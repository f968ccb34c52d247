/** The entry records the pages, the home-page hook and the debug panel read.
    Only the fields they consult are kept. Timestamps are integer
    milliseconds; `None` stands for a missing or empty field. */
module Entries {
  import opened Wrappers
  import opened JsString
  import opened Ordering

  /** A field read as a list: missing, a string, or an array of `count` items. */
  datatype ListField = NoList | TextValue(text: string) | Items(count: nat)

  datatype Entry = Entry(
    uid: string,
    title: Option<string>,
    updatedAt: Option<int>,
    createdAt: Option<int>,
    heroTitle: Option<string>,
    heroSubtitle: Option<string>,
    heroBadge: Option<string>,
    features: ListField,
    statistics: Option<seq<string>>,
    ctaPrimaryText: Option<string>,
    ctaSecondaryText: Option<string>,
    mainFeatures: ListField,
    additionalServices: ListField,
    integrations: ListField)

  /** `e.updated_at || e.created_at`, read as a timestamp; 0 when neither is set. */
  function Recency(e: Entry): (r: int)
    ensures e.updatedAt.Some? ==> r == e.updatedAt.value
    ensures e.updatedAt.None? && e.createdAt.Some? ==> r == e.createdAt.value
    ensures e.updatedAt.None? && e.createdAt.None? ==> r == 0
  {
    if e.updatedAt.Some? then e.updatedAt.value
    else if e.createdAt.Some? then e.createdAt.value
    else 0
  }

  /** A string field is truthy: present and not empty. */
  predicate HasValue(s: Option<string>) {
    s.Some? && s.value != []
  }

  /** `s && s.trim()`: the field is present and not whitespace only. */
  predicate HasText(s: Option<string>) {
    s.Some? && Trim(s.value) != []
  }

  /** The field holds at least one character that is not whitespace. */
  predicate HasVisibleChar(s: Option<string>) {
    s.Some? && exists i :: 0 <= i < |s.value| && !IsSpace(s.value[i])
  }

  /** The trim-based test and the character-based one agree. */
  lemma HasTextIff(s: Option<string>)
    ensures HasText(s) <==> HasVisibleChar(s)
  {
    if s.Some? {
      TrimEmptyIffBlank(s.value);
    }
  }

  /** Some value of the statistics object trims non-empty. */
  predicate StatsHaveText(stats: Option<seq<string>>) {
    stats.Some? && exists i :: 0 <= i < |stats.value| && Trim(stats.value[i]) != []
  }

  /** Some value of the statistics object holds a character that is not whitespace. */
  predicate StatsHaveVisibleChar(stats: Option<seq<string>>) {
    stats.Some? && exists i :: 0 <= i < |stats.value| && HasVisibleChar(Some(stats.value[i]))
  }

  lemma StatsHaveTextIff(stats: Option<seq<string>>)
    ensures StatsHaveText(stats) <==> StatsHaveVisibleChar(stats)
  {
    if stats.Some? {
      forall i | 0 <= i < |stats.value|
        ensures Trim(stats.value[i]) != [] <==> HasVisibleChar(Some(stats.value[i]))
      {
        HasTextIff(Some(stats.value[i]));
      }
    }
  }

  /** After sorting by recency, the head is an element of the list with the
      latest `updated_at || created_at`, the first such in the original order. */
  lemma MostRecentFirst(s: seq<Entry>)
    requires |s| > 0
    ensures SortDesc(s, Recency)[0] in s
    ensures forall e :: e in s ==> Recency(e) <= Recency(SortDesc(s, Recency)[0])
    ensures SortDesc(s, Recency)[0] == s[FirstMaxIndex(s, Recency)]
  {
    SortHeadIsFirstMax(s, Recency);
    SortHeadIsMax(s, Recency);
  }

  /** What a page renders: the chosen entry, or its built-in fallback copy. */
  datatype Shown = Cms(entry: Entry) | FallbackData

  /** `data || fallbackData`. */
  function Displayed(data: Option<Entry>): (s: Shown)
    ensures s.FallbackData? <==> data.None?
    ensures s.Cms? ==> s.entry == data.value
  {
    if data.Some? then Cms(data.value) else FallbackData
  }
}
