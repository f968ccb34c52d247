# Contentstack site: content fetching, sync and page selection

This project models the data layer of a React marketing site whose content lives in the
Contentstack headless CMS. It also models the rules the pages use to choose what to show.

- **Content client** (`src/contentstackClient.js`).
  - `fetchEntries` asks three sources in a fixed order: the Contentstack SDK query, the CDN REST endpoint, and the build-time cache file `/cs_cache.json`. It returns the first non-empty entry list, or `[]`, and never throws.
  - `fetchEntryByUID` tries the SDK and then the CDN single-entry endpoint. When both fail it re-throws the SDK error.
  - The incremental sync (`startSync`, `performFullSync`) keeps its `sync_token` in `localStorage` under `cs_sync_token`.
  - `cs:sync` and `cs:data-updated` are window events.
  - A single module-level auto-sync interval is started and stopped.
- **Sync manager** (`contentstack-sync.js`). This is the `ContentstackSyncManager` class:
  - `initialize` runs once, does an initial sync and starts a 5-minute auto-sync;
  - manual triggering is skipped while a sync is running;
  - it also has a status getter and `shutdown`.
- **Sync configuration** (`sync-config.js`). `getConfig` shallow-merges an environment's overrides over the base settings. The environment defaults to `development`.
- **Home-page hook** (`src/hooks/useHomePageData.js`):
  - the entries are sorted newest first, in place;
  - the first entry with real content is picked, else the newest;
  - a module-level cache is shared by every mounted hook and cleared on `cs:data-updated`.
- **Pages and debug panel**:
  - About and Contact show their newest entry.
  - Services shows the entry with the best `richness * 100000 + timestamp` score.
  - Services also renders two-digit feature badges and splits feature lists on line breaks.
  - About renders initials for team members.
  - The debug panel fetches all five content types and reports per-entry content flags.

## How the model is built

- **Modules.** There is one module per source file, plus shared modules:
  - `Wrappers`: `Option` and `Result`;
  - `JsValue`: JSON-like values with JavaScript truthiness, property reads and `String(v)`;
  - `JsString`: `trim`, `split`/`join`, `String(n)` and `padStart`;
  - `Entries`: the entry record that pages read, and its recency key;
  - `Ordering`: a stable descending sort. It is defined as a function, and an in-place array method is proved equal to it.
- **Outside answers are parameters.** This covers the SDK, `fetch`, `localStorage` and the clock. An `HttpOutcome` or `Result` says what a call returned or whether it threw.
- **Sync answers are functions of the query.** The query itself depends on the stored token.
- **State that changes is a class.** The client's `localStorage` map, dispatched events and interval table form `ContentstackClient.SyncClient`. The sync manager, the home-page cache and hook, the pages and the debug panel are also classes.
- **Timestamps** are integer milliseconds.
- **Defaults.** `fetchEntries` defaults its limit to 100 and `startAutoSync` its interval to 5 minutes. These are the constants `ContentstackClient.DefaultLimit` and `ContentstackClient.DefaultAutoSyncMinutes`. `SyncClient.StartAutoSync` takes the interval as a parameter defaulting to the latter. `FetchEntries` takes the limit as a parameter, and callers pass `DefaultLimit` explicitly.
- **Sorting.** `Array.prototype.sort` is stable, as ECMAScript 2019 requires. It is modelled as a stable insertion sort that puts larger keys first.
- **Services ranking.** Its score is not lexicographic: 100000 ms (100 seconds) of recency outweighs one point of richness. `ServicesPage.NewerCanOutrankRicher` states this. It is the code's behaviour, and the model keeps it.

## Model

| member | source | states |
|---|---|---|
| ContentstackClient.NormalizeSdkResponse | src/contentstackClient.js:37-40 | Normalisation throws exactly when the response is a non-empty array whose first element is null or undefined. A non-array without an `entries` field yields `[]`. |
| ContentstackClient.NormalizeSdkResponseAsWritten | src/contentstackClient.js:37-40 | As written, normalisation throws exactly when the response is a non-empty array whose first element is null or undefined. On every non-array it agrees with the corrected normalisation. |
| ContentstackClient.NormalizeRecoversEntries | src/contentstackClient.js:36-40 | Each documented SDK shape normalises to its entry list: `[{entries}]`, `{entries}` and a bare array of entries. |
| ContentstackClient.AsWrittenKeepsWrappedShapes | src/contentstackClient.js:37-39 | As written, `[{entries: X}, ...]` and `{entries: X, ...}` both normalise to X. |
| ContentstackClient.AsWrittenLosesBareArray | src/contentstackClient.js:38-45 | As written, a non-empty bare array normalises to the inherited `entries` method, so the SDK stage returns nothing. The corrected normalisation returns the array. |
| ContentstackClient.SdkStageAsWritten | src/contentstackClient.js:30-49 | The SDK stage as written answers exactly when the query resolved, the as-written normalisation did not throw, and its list is truthy with a truthy `length`. It then answers with that list. |
| ContentstackClient.SdkStage | src/contentstackClient.js:30-49 | With the corrected normalisation: the stage answers exactly when the query resolved, normalisation did not throw, and the list is truthy with a truthy `length`. It then answers with that list. |
| ContentstackClient.CdnStage | src/contentstackClient.js:52-76 | The CDN stage answers exactly when the response is `ok`, its JSON parsed to a truthy value, and `entries` is a non-empty array. It then answers with that array. |
| ContentstackClient.CacheStage | src/contentstackClient.js:79-95 | The cache stage answers exactly when running in a browser, the cache file came back `ok` and parsed to a truthy value, and the content type's key holds a non-empty array. It then answers with that array. |
| ContentstackClient.FetchEntries | src/contentstackClient.js:26-99 | As written (SDK stage via the as-written normalisation): the result is the first present of the SDK, CDN and cache stages, else `[]`. It is `[]` iff all three are empty. The requests issued stop at the first source that answers. The SDK limit is applied only when non-zero, and the cache is asked only in a browser. |
| ContentstackClient.FetchEntriesCorrected | src/contentstackClient.js:26-99 | The same guarantees as `FetchEntries`, with the corrected SDK stage. |
| ContentstackClient.RunStages | src/contentstackClient.js:50-99 | Once the SDK stage has given its answer, the entries are the first present of it, the CDN stage and the cache stage, else `[]`. |
| ContentstackClient.WrappedSdkScenario | src/contentstackClient.js:26-49 | As written, the SDK's usual answer `[{entries: [p]}]` is returned after the SDK request alone. |
| ContentstackClient.BareArrayScenario | src/contentstackClient.js:26-99 | With the SDK answering a bare array `[a]` and the CDN `{entries: [b]}`, the code as written issues two requests and returns `[b]`. The corrected version returns `[a]` after one request. |
| ContentstackClient.CdnFallbackScenario | src/contentstackClient.js:51-70 | A post found only on the CDN is returned when the SDK answers with an empty list. |
| ContentstackClient.CdnEntry | src/contentstackClient.js:108-114 | The single-entry fallback answers exactly when the response is `ok`, parsed to a truthy value, and has a truthy `entry` field. It then answers with that field. |
| ContentstackClient.FetchEntryByUid | src/contentstackClient.js:101-120 | The SDK entry is used, via `toJSON()` when it has one, and the CDN is not asked. After an SDK failure the CDN entry is used if present. Otherwise the SDK's own error is re-thrown. |
| ContentstackClient.FetchCache | src/contentstackClient.js:189-198 | The result is null outside a browser. In a browser, an `ok` response whose body parsed yields that body. Any non-null result is such a body. |
| ContentstackClient.ReadToken | src/contentstackClient.js:130-137 | A token is read iff storage works and holds `cs_sync_token`. |
| ContentstackClient.StoreToken | src/contentstackClient.js:139-147 | Writing the token never changes any other storage key. |
| ContentstackClient.TokenRoundTrip | src/contentstackClient.js:130-147 | Storing a non-empty token and reading it back gives the same token. |
| ContentstackClient.FalsyTokenClears | src/contentstackClient.js:139-143 | Storing a falsy token leaves no token stored. |
| ContentstackClient.QueryFor | src/contentstackClient.js:166-167 | The query is `init=true` iff no non-empty token is stored. Otherwise it carries that token. |
| ContentstackClient.ClearedTokenBootstraps | src/contentstackClient.js:139-154 | After a falsy token is written, in any storage mode, the next sync query is `init=true`. |
| ContentstackClient.SyncFailsOnlyOnHttpPath | src/contentstackClient.js:149-186 | A sync fails only when the HTTP fallback was the last request and failed, with the fallback's own error. An SDK error never surfaces. |
| ContentstackClient.CsSyncOnlyOnHttpPath | src/contentstackClient.js:173-180 | `cs:sync` is dispatched only when the HTTP sync ran, and it carries the returned payload. |
| ContentstackClient.DataUpdatedIffItems | src/contentstackClient.js:205-216 | `cs:data-updated` fires iff the runtime can dispatch and the payload has a positive `items.length`. It then reports exactly that count and the payload's `sync_token`. For an `items` array, the count is the number of items. |
| ContentstackClient.BootstrapScenario | src/contentstackClient.js:149-216 | From empty storage the sync bootstraps with `init`. It then stores the returned token and reports one updated item. |
| ContentstackClient.SyncClient.constructor | src/contentstackClient.js:226 | A client starts with the given storage, no events, and no auto-sync interval. |
| ContentstackClient.SyncClient.StoredSyncToken | src/contentstackClient.js:130-137 | A token is returned iff storage works and holds `cs_sync_token`, and it is the stored value. |
| ContentstackClient.SyncClient.SetStoredSyncToken | src/contentstackClient.js:139-147 | Storage becomes the token-write of the old storage, and nothing else changes. |
| ContentstackClient.SyncClient.StartSync | src/contentstackClient.js:149-186 | Result, requests and events follow the SDK-then-HTTP path for the query chosen by the old stored token. A truthy `sync_token` replaces the stored one. The interval is untouched. |
| ContentstackClient.SyncClient.PerformFullSync | src/contentstackClient.js:201-223 | This is `startSync` plus a `cs:data-updated` event when items arrived. Failures are re-thrown unchanged. |
| ContentstackClient.SyncClient.StartAutoSync | src/contentstackClient.js:228-238 | The previous interval is cleared. Exactly one fresh interval of `minutes*60*1000` ms is live. |
| ContentstackClient.SyncClient.StopAutoSync | src/contentstackClient.js:240-245 | No interval is live afterwards. Storage and events are untouched. |
| ContentstackClient.SyncClient.AutoSyncTick | src/contentstackClient.js:231-237 | One firing does a full sync and swallows its failure. The interval keeps running. |
| ContentstackSync.ContentstackSyncManager.constructor | contentstack-sync.js:6-10 | A new manager is not initialised, has no last sync time and no sync in progress. |
| ContentstackSync.ContentstackSyncManager.PerformInitialSync | contentstack-sync.js:36-54 | The result is the sync payload, or null on failure. Storage becomes the token write of the sync, and the events are the old ones plus the sync's events and the `cs:data-updated` event. The last sync time is set only on success. The in-progress flag is cleared. |
| ContentstackSync.ContentstackSyncManager.Initialize | contentstack-sync.js:13-33 | A second call does nothing. A first call syncs, with the storage and events of a full sync, and records the time only on success. It then starts a single 5-minute interval (300000 ms) and becomes initialised, whether or not the sync failed. |
| ContentstackSync.ContentstackSyncManager.TriggerSync | contentstack-sync.js:57-80 | While a sync is in progress the call returns nothing and issues no request. Otherwise it performs a full sync, with its storage and events, re-throws its failure, and records the time only on success. |
| ContentstackSync.ContentstackSyncManager.GetStatus | contentstack-sync.js:83-89 | The status mirrors the three state fields. |
| ContentstackSync.ContentstackSyncManager.Shutdown | contentstack-sync.js:92-96 | The auto-sync is stopped and the manager is no longer initialised. |
| SyncConfig.MergeOptions | sync-config.js:54-57 | Without environment options, the options are the base options. |
| SyncConfig.Merge | sync-config.js:48-58 | Overrides replace only the fields they set. Content types and the environment table are kept. |
| SyncConfig.GetConfig | sync-config.js:47-59 | Content types, environments and options always come from the base configuration. |
| SyncConfig.DefaultIsDevelopment | sync-config.js:34-49 | With no environment, the development settings apply: a 2-minute interval and debug on. |
| SyncConfig.ProductionSettings | sync-config.js:39-42 | Production uses a 10-minute interval and debug off. |
| SyncConfig.UnknownEnvironmentIsBase | sync-config.js:46-58 | An unknown environment yields the base configuration, with a 5-minute interval. |
| JsString.TrimEmptyIffBlank | src/hooks/useHomePageData.js:85-87 | `trim()` is empty iff every character is ECMAScript whitespace. |
| JsString.SplitJoin | src/pages/Services.jsx:125 | Joining the split pieces gives the text back. There is one more piece than separators. |
| JsString.ValueOfDecimal | src/pages/Services.jsx:119 | The digits of `String(n)` read back as n. |
| JsString.LeadingZerosIgnored | src/pages/Services.jsx:119 | Zero padding does not change the value a digit string denotes. |
| JsString.PadStart | src/pages/Services.jsx:119 | The result has the target width, or keeps its length when longer. It ends with the text and is filled before it. |
| Ordering.SortDesc | src/hooks/useHomePageData.js:76-80 | The sorted list is a permutation of the input, ordered by descending key. |
| Ordering.SortDescStable | src/hooks/useHomePageData.js:76-80 | The sort is stable: for every key, the elements with that key appear in the same order as in the input. |
| Ordering.InsertWithKey | src/hooks/useHomePageData.js:76-80 | Inserting into a descending list puts the new element after every element with the same key. |
| Ordering.SortKeepsFirstWithKey | src/hooks/useHomePageData.js:76-83 | For any test and key, sorting does not change which element with that key is the first to pass the test. |
| Ordering.SortInPlace | src/hooks/useHomePageData.js:76-80 | The array afterwards is the stable descending sort of its old contents. |
| Ordering.SortHeadIsFirstMax | src/pages/About.jsx:14-19 | The head of the sorted list is the first element in input order that has the largest key. |
| Ordering.SortHeadIsMax | src/pages/About.jsx:14-19 | The head of the sorted list is an element of the input with the largest key. |
| Entries.HasTextIff | src/hooks/useHomePageData.js:85-87 | `s && s.trim()` holds iff the string has a non-whitespace character. |
| Entries.Recency | src/hooks/useHomePageData.js:77-78 | The recency is `updated_at` when set, else `created_at`, else 0. |
| Entries.StatsHaveTextIff | src/hooks/useHomePageData.js:93-95 | Some statistics value trims non-empty iff some value has a non-whitespace character. |
| Entries.MostRecentFirst | src/pages/About.jsx:14-19 | After sorting by `updated_at \|\| created_at`, the head is in the list, is the latest, and is the first such. |
| Entries.Displayed | src/pages/About.jsx:72 | The fallback copy is shown iff no entry was chosen. |
| HomePageData.FirstWithContent | src/hooks/useHomePageData.js:83-102 | The result is the first position whose entry has content, or none when no entry has content. |
| HomePageData.HasHomeContent | src/hooks/useHomePageData.js:85-101 | An entry has content iff a hero text, a statistics value or a CTA text has a non-whitespace character, or `features` is a non-empty array. |
| HomePageData.FirstSatisfyingWithKey | src/hooks/useHomePageData.js:83 | The first element that passes a test is also the first to pass among the elements sharing its key. |
| HomePageData.SelectHomeEntry | src/hooks/useHomePageData.js:83-107 | The selection is none iff the list is empty. Otherwise it is the first entry with content, or the head when no entry has content. |
| HomePageData.FetchHomePageData | src/hooks/useHomePageData.js:67-117 | A missing or empty list gives null. Otherwise the array is sorted in place, newest first, and the selection is made from it. |
| HomePageData.FirstWithContentIsLatest | src/hooks/useHomePageData.js:76-102 | On a newest-first list, the first entry with content is at least as recent as every entry with content. |
| HomePageData.SelectFromSorted | src/hooks/useHomePageData.js:83-110 | On a newest-first list, the choice is the latest entry with content. Without content it is the head. |
| HomePageData.SelectionFirstAmongTies | src/hooks/useHomePageData.js:76-102 | With content present, the choice is the first entry in input order among the entries with content that share its recency. |
| HomePageData.HomeSelection | src/hooks/useHomePageData.js:67-112 | The chosen entry is in the list and is null only for an empty list. When an entry has content, the choice has content and the greatest recency among such entries, and it is the first of them in input order. Otherwise it is the latest entry, the first among ties. |
| HomePageData.HomePageCache.constructor | src/hooks/useHomePageData.js:5-6 | The cache starts empty, with no pending load. |
| HomePageData.HomePageHook.constructor | src/hooks/useHomePageData.js:9-10 | A hook starts from the cached data and is loading iff nothing is cached. |
| HomePageData.HomePageHook.LoadHomePageData | src/hooks/useHomePageData.js:13-47 | Cached data is used without fetching. Otherwise the fetched selection is stored in the cache. Loading ends with no pending promise. |
| HomePageData.HomePageHook.HandleContentUpdate | src/hooks/useHomePageData.js:52-58 | After a content update the hook always fetches again and caches the new selection. |
| DebugPanel.CheckHasContentMeaning | src/components/DebugPanel.jsx:57-78 | Content means a visible character in the field that decides for each type, or features or statistics for the home page. Unknown types have no content. |
| DebugPanel.CheckHasContent | src/components/DebugPanel.jsx:57-78 | Only the five known content types can have content. |
| DebugPanel.Summarize | src/components/DebugPanel.jsx:20-25 | A summary keeps uid and `updated_at`, uses the title or `No title`, and carries the type's content flag. |
| DebugPanel.SummarizeAll | src/components/DebugPanel.jsx:20 | There is one summary per entry, in order. |
| DebugPanel.ReportFor | src/components/DebugPanel.jsx:14-33 | A rejection is reported with its message. Otherwise the report holds the count and, in order, each entry's summary: uid, title or `No title`, `updated_at` and content flag. |
| DebugPanel.CacheInfoFor | src/components/DebugPanel.jsx:36-41 | The cache is available iff its value is truthy. It then lists exactly the cache's keys, and otherwise no content types. |
| DebugPanel.DebugPanel.constructor | src/components/DebugPanel.jsx:5-6 | The panel starts with no data, not loading. |
| DebugPanel.DebugPanel.LoadDebugInfo | src/components/DebugPanel.jsx:8-55 | All five types and `cache_info` are reported, each type independently of the others' failures. Loading ends. |
| ServicesPage.BestService | src/pages/Services.jsx:14-25 | The choice is an entry with the highest score, the first among ties. At equal timestamps it is the richer one. |
| ServicesPage.Richness | src/pages/Services.jsx:14-21 | Richness is zero iff there is no hero title and every list is missing or empty. Each main feature adds at least 10. |
| ServicesPage.Score | src/pages/Services.jsx:14-23 | The score is at least the recency, and at least 100000 more when the entry has any richness. |
| ServicesPage.RicherOutranksWithin | src/pages/Services.jsx:22-24 | A richer entry outscores a poorer one that is less than 100 s newer. |
| ServicesPage.NewerCanOutrankRicher | src/pages/Services.jsx:22-23 | An entry one richness point poorer but more than 100 s newer is chosen. |
| ServicesPage.Services.constructor | src/pages/Services.jsx:5-6 | The page starts with no data and loading. |
| ServicesPage.Services.LoadServicesData | src/pages/Services.jsx:9-33 | A non-empty list selects its best-scoring entry without reordering the list. An empty list keeps the current data. Loading ends. |
| ServicesPage.Services.Rendered | src/pages/Services.jsx:91 | The fallback copy is shown iff no entry was chosen. |
| ServicesPage.IndexBadgeMeaning | src/pages/Services.jsx:119 | The badge has at least two digits and reads as the 1-based position. A single digit gets exactly one leading zero. |
| ServicesPage.IndexBadge | src/pages/Services.jsx:119 | The badge is at least two digits and ends with the decimal form of the 1-based position. |
| ServicesPage.StripLiteralNewlines | src/pages/Services.jsx:126 | The result is no longer than the input and uses only its characters. A text without a literal `\n` at either end is unchanged. |
| ServicesPage.StripWrapped | src/pages/Services.jsx:126 | Stripping a text wrapped in literal `\n` on both sides gives it back. |
| ServicesPage.StripEachEnd | src/pages/Services.jsx:126 | Each end is stripped on its own: a literal `\n` put only at the start, or only at the end, of a text not already having one at the other end is removed. |
| ServicesPage.StripAll | src/pages/Services.jsx:125-126 | Each line is stripped, in order. |
| ServicesPage.FeatureLinesMeaning | src/pages/Services.jsx:123-127 | A falsy text gives no list. Otherwise there is one stripped item per line break plus one, and no item contains a line break. |
| ServicesPage.FeatureLines | src/pages/Services.jsx:123-127 | A falsy text gives no list. Otherwise there is one item per piece of the split text. |
| AboutPage.About.constructor | src/pages/About.jsx:5-6 | The page starts with no data and loading. |
| AboutPage.About.LoadAboutData | src/pages/About.jsx:9-26 | A non-empty list is sorted in place, newest first, and its head is shown. An empty list keeps the current data. Loading ends. |
| AboutPage.About.Rendered | src/pages/About.jsx:72 | The fallback copy is shown iff no entry was chosen. |
| AboutPage.FirstChars | src/pages/About.jsx:171 | There is at most one initial per part. When no part is empty, there is exactly one per part: its first character, in order. |
| AboutPage.Initials | src/pages/About.jsx:171 | The initials are never empty. A missing name gives `TM`. |
| AboutPage.FirstCharsOfSplit | src/pages/About.jsx:171 | The first characters of the space-separated parts are exactly the word starts. |
| AboutPage.InitialsAreWordStarts | src/pages/About.jsx:171 | The initials are the name's word starts, or `TM` when it has none. |
| ContactPage.Contact.constructor | src/pages/Contact.jsx:5-6 | The page starts with no data and loading. |
| ContactPage.Contact.LoadContactData | src/pages/Contact.jsx:9-26 | A non-empty list is sorted in place, newest first, and its head is shown. An empty list keeps the current data. Loading ends. |
| ContactPage.Contact.Rendered | src/pages/Contact.jsx:87 | The fallback copy is shown iff no entry was chosen. |

## Left out

- Network, SDK, `localStorage`, clock and `setInterval`. These are parameters: `Result`/`HttpOutcome` values, sync functions of the query, a `StorageMode`, a `now` value, and a table of live intervals. The request URLs, headers and URL encoding are not modelled.
- Asynchronous interleaving. Every `await` is modelled as completing before the next call starts.
  - The sync manager's "already in progress" skip and the hook's wait-for-pending-promise branch can only arise under interleaving.
  - The skip branch is modelled for any state, but no sequential call sequence reaches it.
- HomePageData.HomePageHook.LoadHomePageData: requires that no load is pending, because waiting on another hook's promise (lines 14-24 of the hook) needs interleaving.
- HomePageData.HomePageHook.LoadHomePageData: the `catch` that sets the data to null is not modelled. In this model `fetchHomePageData` cannot throw, because `fetchEntries` catches every failure.
- `onProgress` callbacks, console logging and the React rendering of the pages and panel.
- Dates. Timestamps are integers.
  - For About, Contact and the home hook, an entry with neither `updated_at` nor `created_at` is given recency 0. The code builds an Invalid Date there, and the sort comparator returns NaN. Services uses 0 itself.
  - `lastSyncTime` is the `now` parameter.
- Decoding raw CMS values into the `Entries.Entry` record. The pages, hook and panel read typed fields.
  - A list field is missing, a string or an array of a given length.
  - Statistics are string values.
  - Feature text is a string.
- The debug panel's fetch outcomes are parameters. `fetchEntries` itself never rejects, and `fetchCache` never throws, so the panel's cache-error branch is absent.
- ContentstackClient.SyncClient.AutoSyncTick: when a failure carries no `message`, the tick's logging of `err.message` is not modelled.
- JsValue.Get: properties inherited from prototypes are modelled only for `length` and an array's `entries`. Other inherited members read as undefined.
- JsValue.PropNames: `Object.keys` puts integer-like keys first, in ascending order. The model keeps insertion order, which agrees for the cache file's content-type keys, none of which is integer-like.
- JsValue.Get: a string's `length` counts Unicode scalar values. JavaScript counts UTF-16 code units, so the two differ for characters outside the Basic Multilingual Plane.
- AboutPage.Initials: `n[0]` is modelled as the first Unicode scalar value of a word. For a word starting outside the Basic Multilingual Plane, JavaScript would take half a surrogate pair.
- Relational comparison of a non-number `length` with 0 in `performFullSync` is modelled as "not a positive number".

## Findings

| source | as written | input that shows it | evidently intended | confidence | as-written member | corrected member |
|---|---|---|---|---|---|---|
| src/contentstackClient.js:38-40 | `res && res.entries` is true for every array, because arrays inherit an `entries` method, so the bare-array branch on line 40 is never taken. `entries.length` is then 0, and the SDK result is dropped for the CDN. | An SDK response that is a bare array, e.g. `[{uid: "a"}]` | A bare array of entries is returned as the entry list | high (not executed) | ContentstackClient.AsWrittenLosesBareArray | ContentstackClient.NormalizeSdkResponse |

`ContentstackClient.FetchEntries` models the code as written: its SDK stage is `ContentstackClient.SdkStageAsWritten`, built on `ContentstackClient.NormalizeSdkResponseAsWritten`. `ContentstackClient.FetchEntriesCorrected` uses the corrected normalisation. `ContentstackClient.BareArrayScenario` shows the two apart on one input.
