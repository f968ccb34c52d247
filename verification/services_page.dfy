/** The services page: which `services_page` entry is shown, the numbered
    badges of its core features and the lines of each feature's list. */
module ServicesPage {
  import opened Wrappers
  import opened JsString
  import opened Entries
  import opened Ordering

  /** `Array.isArray(f) ? f.length : 0`. */
  function ArrayLength(f: ListField): nat {
    if f.Items? then f.count else 0
  }

  /** The richness part of the score: 1 for a hero title, 10 per main feature,
      5 per additional service, 1 per integration. */
  function Richness(e: Entry): (r: nat)
    ensures r == 0 <==> !HasValue(e.heroTitle) && ArrayLength(e.mainFeatures) == 0
                        && ArrayLength(e.additionalServices) == 0 && ArrayLength(e.integrations) == 0
    ensures r >= 10 * ArrayLength(e.mainFeatures)
  {
    (if HasValue(e.heroTitle) then 1 else 0)
    + 10 * ArrayLength(e.mainFeatures) + 5 * ArrayLength(e.additionalServices) + ArrayLength(e.integrations)
  }

  /** The ranking key: richness times 100000 plus the recency timestamp. */
  function Score(e: Entry): (r: int)
    ensures r >= Recency(e)
    ensures Richness(e) > 0 ==> r >= Recency(e) + 100000
  {
    Richness(e) * 100000 + Recency(e)
  }

  /** `[...entries].sort((a, b) => score(b) - score(a))[0]`: an entry of the
      list with the highest score, the first such in list order. */
  function BestService(entries: seq<Entry>): (r: Entry)
    requires |entries| > 0
    ensures r in entries
    ensures forall e :: e in entries ==> Score(e) <= Score(r)
    ensures r == entries[FirstMaxIndex(entries, Score)]
    ensures forall e :: e in entries && Recency(e) == Recency(r) ==> Richness(e) <= Richness(r)
  {
    SortHeadIsFirstMax(entries, Score);
    SortHeadIsMax(entries, Score);
    SortDesc(entries, Score)[0]
  }

  /** Richness outweighs recency only within 100000 ms per point: an entry one
      point poorer but more than 100 seconds newer is chosen. */
  lemma NewerCanOutrankRicher(rich: Entry, newer: Entry)
    requires Richness(rich) == Richness(newer) + 1
    requires Recency(newer) > Recency(rich) + 100000
    ensures BestService([rich, newer]) == newer
  {
    assert Score(newer) > Score(rich);
  }

  /** Within 100000 ms of recency, the richer entry scores higher. */
  lemma RicherOutranksWithin(richer: Entry, other: Entry)
    requires Richness(richer) > Richness(other)
    requires Recency(other) - Recency(richer) < 100000
    ensures Score(richer) > Score(other)
  {
    assert Richness(richer) * 100000 >= Richness(other) * 100000 + 100000;
  }

  class Services {
    var servicesData: Option<Entry>
    var loading: bool

    constructor ()
      ensures servicesData == None && loading
    {
      servicesData := None;
      loading := true;
    }

    /** `loadServicesData` given the list `fetchEntries` returned: a non-empty
        list selects its best-scoring entry, ranking a copy so the list itself
        keeps its order; a missing or empty list keeps the current data. */
    method LoadServicesData(entries: array?<Entry>)
      modifies this
      ensures !loading
      ensures (entries == null || entries.Length == 0) ==> servicesData == old(servicesData)
      ensures entries != null && entries.Length > 0 ==> servicesData == Some(BestService(entries[..]))
    {
      if entries != null && entries.Length > 0 {
        servicesData := Some(BestService(entries[..]));
      }
      loading := false;
    }

    /** `servicesData || fallbackData`. */
    function Rendered(): (s: Shown)
      reads this
      ensures s.FallbackData? <==> servicesData.None?
    {
      Displayed(servicesData)
    }
  }

  /** `String(index + 1).padStart(2, '0')`. */
  function IndexBadge(index: nat): (r: string)
    ensures |r| >= 2 && |r| >= |Decimal(index + 1)| && AllDigits(r)
    ensures r[|r| - |Decimal(index + 1)|..] == Decimal(index + 1)
  {
    PadStart(Decimal(index + 1), 2, '0')
  }

  /** The badge is at least two digits long and reads back as the 1-based
      position; positions below 10 get exactly one leading zero. */
  lemma IndexBadgeMeaning(index: nat)
    ensures |IndexBadge(index)| >= 2 && AllDigits(IndexBadge(index))
    ensures ValueOf(IndexBadge(index)) == index + 1
    ensures index + 1 < 10 ==> IndexBadge(index) == "0" + Decimal(index + 1)
    ensures index + 1 >= 10 ==> IndexBadge(index) == Decimal(index + 1)
  {
    var d := Decimal(index + 1);
    ValueOfDecimal(index + 1);
    if index + 1 < 10 {
      assert IndexBadge(index) == Zeros(1) + d;
      LeadingZerosIgnored(1, d);
    }
  }

  /** The two characters backslash and n, which the pattern `\\n` matches. */
  const LiteralNewline: string := ['\\', 'n']

  /** `p.replace(/^\\n|\\n$/g, '')`: one literal backslash-n is removed from
      the start, then one from the end of what remains. */
  function StripLiteralNewlines(p: string): (r: string)
    ensures |r| <= |p|
    ensures forall c :: c in r ==> c in p
    ensures !(|p| >= 2 && (p[..2] == LiteralNewline || p[|p| - 2..] == LiteralNewline)) ==> r == p
  {
    var afterStart := if |p| >= 2 && p[..2] == LiteralNewline then p[2..] else p;
    if |afterStart| >= 2 && afterStart[|afterStart| - 2..] == LiteralNewline
    then afterStart[..|afterStart| - 2]
    else afterStart
  }

  /** Wrapping a text in literal backslash-n on both sides and stripping gives it back. */
  lemma StripWrapped(s: string)
    ensures StripLiteralNewlines(LiteralNewline + s + LiteralNewline) == s
  {
    var p := LiteralNewline + s + LiteralNewline;
    assert p[..2] == LiteralNewline;
    var afterStart := p[2..];
    assert afterStart == s + LiteralNewline;
    assert afterStart[|afterStart| - 2..] == LiteralNewline;
    assert afterStart[..|afterStart| - 2] == s;
  }

  /** The literal is removed from each end independently: a text that does
      not itself end (start) in the literal gets back exactly itself after a
      literal is put before (after) it. */
  lemma StripEachEnd(s: string)
    ensures !(|s| >= 2 && s[|s| - 2..] == LiteralNewline) ==> StripLiteralNewlines(LiteralNewline + s) == s
    ensures !(|s| >= 2 && s[..2] == LiteralNewline) ==> StripLiteralNewlines(s + LiteralNewline) == s
  {
    var front := LiteralNewline + s;
    assert front[..2] == LiteralNewline;
    assert front[2..] == s;
    var back := s + LiteralNewline;
    assert back[|back| - 2..] == LiteralNewline;
    assert back[..|back| - 2] == s;
    if |s| >= 2 {
      assert back[..2] == s[..2];
    }
  }

  function StripAll(pieces: seq<string>): (r: seq<string>)
    ensures |r| == |pieces|
    ensures forall i :: 0 <= i < |pieces| ==> r[i] == StripLiteralNewlines(pieces[i])
  {
    if pieces == [] then [] else [StripLiteralNewlines(pieces[0])] + StripAll(pieces[1..])
  }

  /** The list items of one core feature: nothing when `features` is falsy,
      otherwise one item per line, each stripped of literal backslash-n. */
  function FeatureLines(features: Option<string>): (r: Option<seq<string>>)
    ensures r.None? <==> !HasValue(features)
    ensures r.Some? ==> |r.value| == |Split(features.value, '\n')|
  {
    if HasValue(features) then Some(StripAll(Split(features.value, '\n'))) else None
  }

  /** A text with k line breaks yields k + 1 items, none containing a line break,
      each the corresponding line stripped. */
  lemma FeatureLinesMeaning(features: Option<string>)
    ensures FeatureLines(features).None? <==> !HasValue(features)
    ensures FeatureLines(features).Some? ==>
      var lines := FeatureLines(features).value;
      && |lines| == Occurrences(features.value, '\n') + 1
      && (forall i :: 0 <= i < |lines| ==> '\n' !in lines[i])
      && (forall i :: 0 <= i < |lines| ==> lines[i] == StripLiteralNewlines(Split(features.value, '\n')[i]))
  {
    if HasValue(features) {
      SplitJoin(features.value, '\n');
    }
  }
}
