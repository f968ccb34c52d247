/** The content client: fetching a content type's entries through three
    sources in a fixed order, fetching one entry, the persisted sync token,
    the incremental sync, and the single auto-sync interval.

    The Contentstack SDK, `fetch`, `localStorage`, `window.dispatchEvent` and
    `setInterval` are not visible here. Their answers are parameters: a
    `Result` says whether a call threw or what it returned, and the storage
    and browser capabilities are fixed by an `Env`. */
module ContentstackClient {
  import opened Wrappers
  import opened JsValue

  // ---------------------------------------------------------------------
  // Requests and responses

  /** One request issued to a content source. */
  datatype Request =
    | SdkEntriesQuery(contentType: string, appliedLimit: Option<int>)
    | CdnEntriesGet(contentType: string, limit: int)
    | CacheFileGet
    | SdkEntryFetch(contentType: string, uid: string)
    | CdnEntryGet(contentType: string, uid: string)

  /** What awaiting `fetch(url)` and then `resp.json()` produced: the fetch threw,
      or it resolved to a response with an `ok` flag whose body parsed or threw. */
  datatype HttpOutcome = NetworkError(error: Error) | Response(ok: bool, body: Result<Value>)

  /** The error JavaScript throws when a property of null is read. */
  const NullPropertyError := Error("Cannot read properties of null")

  /** The empty entry list `[]`. */
  const NoEntries := Arr([])

  /** The default `limit` of `fetchEntries` (src/contentstackClient.js:26). */
  const DefaultLimit := 100

  /** The default period of `startAutoSync`, in minutes (src/contentstackClient.js:228). */
  const DefaultAutoSyncMinutes := 5

  // ---------------------------------------------------------------------
  // SDK response normalisation

  /** src/contentstackClient.js lines 37-40 exactly as written. Reading
      `res.entries` off an array finds the `entries` method every array
      inherits, so the second test succeeds for every array and the bare-array
      test on line 40 is never reached. On anything but an array it agrees
      with the corrected reading. */
  function NormalizeSdkResponseAsWritten(res: Value): (r: Result<Value>)
    ensures r.Failure? <==> res.Arr? && |res.items| > 0 && Nullish(res.items[0])
    ensures !res.Arr? ==> r == NormalizeSdkResponse(res)
  {
    if res.Arr? && |res.items| > 0 && Nullish(res.items[0]) then Failure(NullPropertyError)
    else if res.Arr? && |res.items| > 0 && Truthy(Get(res.items[0], "entries"))
    then Success(Get(res.items[0], "entries"))
    else if Truthy(res) && Truthy(Get(res, "entries")) then Success(Get(res, "entries"))
    else if res.Arr? then Success(res)
    else Success(NoEntries)
  }

  /** src/contentstackClient.js lines 37-40 with `entries` read as an own
      field, the reading the three documented shapes call for. This is the
      normalisation `FetchEntriesCorrected` uses. */
  function NormalizeSdkResponse(res: Value): (r: Result<Value>)
    ensures r.Failure? <==> res.Arr? && |res.items| > 0 && Nullish(res.items[0])
    ensures !res.Arr? && !Truthy(OwnField(res, "entries")) ==> r == Success(NoEntries)
  {
    if res.Arr? && |res.items| > 0 && Nullish(res.items[0]) then Failure(NullPropertyError)
    else if res.Arr? && |res.items| > 0 && Truthy(OwnField(res.items[0], "entries"))
    then Success(OwnField(res.items[0], "entries"))
    else if Truthy(res) && Truthy(OwnField(res, "entries")) then Success(OwnField(res, "entries"))
    else if res.Arr? then Success(res)
    else Success(NoEntries)
  }

  /** The response shapes the SDK is known to return. */
  datatype SdkShape =
    | WrappedInArray(entries: seq<Value>, rest: seq<Value>)        // [{entries: [...]}, ...rest]
    | WrappedInObject(entries: seq<Value>, others: seq<(string, Value)>)  // {entries: [...], ...}
    | BareArray(entries: seq<Value>)                                 // [...]

  function Encode(shape: SdkShape): Value {
    match shape
    case WrappedInArray(es, rest) => Arr([Obj([("entries", Arr(es))])] + rest)
    case WrappedInObject(es, others) => Obj([("entries", Arr(es))] + others)
    case BareArray(es) => Arr(es)
  }

  /** A bare array holds entries, and an entry has no `entries` field of its own. */
  predicate WellFormed(shape: SdkShape) {
    shape.BareArray? && shape.entries != [] ==>
      !Nullish(shape.entries[0]) && !Truthy(OwnField(shape.entries[0], "entries"))
  }

  /** Normalisation recovers the entry list from each documented shape. */
  lemma NormalizeRecoversEntries(shape: SdkShape)
    requires WellFormed(shape)
    ensures NormalizeSdkResponse(Encode(shape)) == Success(Arr(shape.entries))
  {
    match shape
    case WrappedInArray(es, rest) =>
      var res := Encode(shape);
      assert res.items[0] == Obj([("entries", Arr(es))]);
    case WrappedInObject(es, others) =>
    case BareArray(es) =>
  }

  /** As written, a non-empty bare array normalises to the inherited `entries`
      method, whose `length` is 0, so the SDK stage falls through. */
  lemma AsWrittenLosesBareArray(es: seq<Value>)
    requires WellFormed(BareArray(es)) && es != []
    ensures NormalizeSdkResponseAsWritten(Encode(BareArray(es))) == Success(BuiltinMethod("entries", 0))
    ensures SdkStageAsWritten(Success(Encode(BareArray(es)))).None?
    ensures SdkStage(Success(Encode(BareArray(es)))) == Some(Arr(es))
  {
    var res := Encode(BareArray(es));
    if es[0].Arr? {
      assert Get(res.items[0], "entries") == BuiltinMethod("entries", 0);
    } else {
      assert Get(res.items[0], "entries") == OwnField(es[0], "entries");
    }
  }

  /** As written, the two wrapped shapes still normalise to their entry list:
      only the bare array is lost. */
  lemma AsWrittenKeepsWrappedShapes(shape: SdkShape)
    requires !shape.BareArray?
    ensures NormalizeSdkResponseAsWritten(Encode(shape)) == Success(Arr(shape.entries))
  {
    match shape
    case WrappedInArray(es, rest) =>
      var res := Encode(shape);
      assert res.items[0] == Obj([("entries", Arr(es))]);
    case WrappedInObject(es, others) =>
  }

  // ---------------------------------------------------------------------
  // fetchEntries: three stages, the first non-empty one wins

  /** An SDK stage decision on an already normalised value: `entries && entries.length`. */
  predicate NonEmptyEntries(entries: Value) {
    Truthy(entries) && Truthy(Get(entries, "length"))
  }

  /** src/contentstackClient.js lines 30-49 as written: what the SDK stage
      returns, or None when it falls through (the query threw, normalisation
      threw, or the normalised entries were empty). */
  function SdkStageAsWritten(found: Result<Value>): (r: Option<Value>)
    ensures r.Some? <==>
      && found.Success?
      && NormalizeSdkResponseAsWritten(found.value).Success?
      && NonEmptyEntries(NormalizeSdkResponseAsWritten(found.value).value)
    ensures r.Some? ==> r.value == NormalizeSdkResponseAsWritten(found.value).value
  {
    if found.Failure? then None
    else match NormalizeSdkResponseAsWritten(found.value)
      case Failure(_) => None
      case Success(entries) => if NonEmptyEntries(entries) then Some(entries) else None
  }

  /** The SDK stage of src/contentstackClient.js lines 30-49 with the
      corrected normalisation. */
  function SdkStage(found: Result<Value>): (r: Option<Value>)
    ensures r.Some? <==>
      && found.Success?
      && NormalizeSdkResponse(found.value).Success?
      && NonEmptyEntries(NormalizeSdkResponse(found.value).value)
    ensures r.Some? ==> r.value == NormalizeSdkResponse(found.value).value
    ensures r.Some? ==> NonEmptyEntries(r.value)
  {
    if found.Failure? then None
    else match NormalizeSdkResponse(found.value)
      case Failure(_) => None
      case Success(entries) => if NonEmptyEntries(entries) then Some(entries) else None
  }

  /** src/contentstackClient.js lines 52-76: the CDN stage returns the
      `entries` of a successfully parsed body of an `ok` response exactly when
      they form a non-empty array. */
  function CdnStage(resp: HttpOutcome): (r: Option<Value>)
    ensures r.Some? <==>
      && resp.Response? && resp.ok && resp.body.Success?
      && Truthy(resp.body.value)
      && Get(resp.body.value, "entries").Arr? && Get(resp.body.value, "entries").items != []
    ensures r.Some? ==> r.value == Get(resp.body.value, "entries")
  {
    if resp.Response? && resp.ok && resp.body.Success? then
      var json := resp.body.value;
      if Truthy(json) && Get(json, "entries").Arr? && Get(json, "entries").items != []
      then Some(Get(json, "entries"))
      else None
    else None
  }

  /** src/contentstackClient.js lines 79-95: in a browser, the value under the
      content type's key in a successfully parsed cache file, exactly when it
      is a non-empty array. A `null` cache body makes line 85 throw, which is
      caught. */
  function CacheStage(contentType: string, inBrowser: bool, resp: HttpOutcome): (r: Option<Value>)
    ensures r.Some? <==>
      && inBrowser && resp.Response? && resp.ok && resp.body.Success?
      && Truthy(resp.body.value)
      && Get(resp.body.value, contentType).Arr? && Get(resp.body.value, contentType).items != []
    ensures r.Some? ==> r.value == Get(resp.body.value, contentType)
  {
    if inBrowser && resp.Response? && resp.ok && resp.body.Success? then
      var cache := resp.body.value;
      if Nullish(cache) then None
      else if Truthy(cache) && Get(cache, contentType).Arr? && Get(cache, contentType).items != []
      then Some(Get(cache, contentType))
      else None
    else None
  }

  /** The first present value of a list of stage results. */
  function FirstPresent(stages: seq<Option<Value>>): Option<Value> {
    if stages == [] then None
    else if stages[0].Some? then stages[0]
    else FirstPresent(stages[1..])
  }

  lemma FirstPresentOfThree(a: Option<Value>, b: Option<Value>, c: Option<Value>)
    ensures FirstPresent([a, b, c]) == if a.Some? then a else if b.Some? then b else c
  {
    if a.None? {
      assert [a, b, c][1..] == [b, c];
      if b.None? {
        assert [b, c][1..] == [c];
        assert FirstPresent([a, b, c]) == FirstPresent([c]);
        if c.None? {
          assert [c][1..] == [];
          assert FirstPresent([c]) == FirstPresent([]);
        }
      }
    }
  }

  datatype FetchRun = FetchRun(entries: Value, requests: seq<Request>)

  /** The SDK query `fetchEntries` builds: the limit is applied only when truthy. */
  function SdkQueryFor(contentType: string, limit: int): Request {
    SdkEntriesQuery(contentType, if limit != 0 then Some(limit) else None)
  }

  /** The requests issued when the SDK stage yielded nothing: the SDK query,
      the CDN request, and the cache file only in a browser. */
  function FallbackRequests(contentType: string, limit: int, inBrowser: bool): seq<Request> {
    [SdkQueryFor(contentType, limit), CdnEntriesGet(contentType, limit)] + (if inBrowser then [CacheFileGet] else [])
  }

  /** Lines 26-99 of src/contentstackClient.js once the SDK stage has given
      `fromSdk`: the first present of the three stages, else `[]`. */
  function RunStages(contentType: string, limit: int, fromSdk: Option<Value>, cdn: HttpOutcome,
                     inBrowser: bool, cacheFile: HttpOutcome): (r: FetchRun)
    ensures r.entries == FirstPresent([fromSdk, CdnStage(cdn), CacheStage(contentType, inBrowser, cacheFile)]).GetOr(NoEntries)
  {
    var sdkQuery := SdkQueryFor(contentType, limit);
    FirstPresentOfThree(fromSdk, CdnStage(cdn), CacheStage(contentType, inBrowser, cacheFile));
    if fromSdk.Some? then FetchRun(fromSdk.value, [sdkQuery])
    else
      var fromCdn := CdnStage(cdn);
      if fromCdn.Some? then FetchRun(fromCdn.value, [sdkQuery, CdnEntriesGet(contentType, limit)])
      else
        var fromCache := CacheStage(contentType, inBrowser, cacheFile);
        var requests := FallbackRequests(contentType, limit, inBrowser);
        if fromCache.Some? then FetchRun(fromCache.value, requests)
        else FetchRun(NoEntries, requests)
  }

  /** `fetchEntries(contentType, {limit})` as written: it never throws. It
      returns the first non-empty result of SDK, CDN and cache, in that order,
      and `[]` when all three are empty or failed. A later source is not asked
      once an earlier one has answered. */
  function FetchEntries(contentType: string, limit: int, sdk: Result<Value>, cdn: HttpOutcome,
                        inBrowser: bool, cacheFile: HttpOutcome): (r: FetchRun)
    ensures var stages := [SdkStageAsWritten(sdk), CdnStage(cdn), CacheStage(contentType, inBrowser, cacheFile)];
      r.entries == FirstPresent(stages).GetOr(NoEntries)
    ensures r.entries == NoEntries <==>
      SdkStageAsWritten(sdk).None? && CdnStage(cdn).None? && CacheStage(contentType, inBrowser, cacheFile).None?
    ensures SdkStageAsWritten(sdk).Some? ==> r.requests == [SdkQueryFor(contentType, limit)]
    ensures SdkStageAsWritten(sdk).None? && CdnStage(cdn).Some? ==>
      r.requests == [SdkQueryFor(contentType, limit), CdnEntriesGet(contentType, limit)]
    ensures SdkStageAsWritten(sdk).None? && CdnStage(cdn).None? ==>
      r.requests == FallbackRequests(contentType, limit, inBrowser)
  {
    RunStages(contentType, limit, SdkStageAsWritten(sdk), cdn, inBrowser, cacheFile)
  }

  /** `fetchEntries` with the corrected SDK normalisation, which keeps a bare
      array of entries instead of falling through to the CDN. */
  function FetchEntriesCorrected(contentType: string, limit: int, sdk: Result<Value>, cdn: HttpOutcome,
                                 inBrowser: bool, cacheFile: HttpOutcome): (r: FetchRun)
    ensures var stages := [SdkStage(sdk), CdnStage(cdn), CacheStage(contentType, inBrowser, cacheFile)];
      r.entries == FirstPresent(stages).GetOr(NoEntries)
    ensures r.entries == NoEntries <==>
      SdkStage(sdk).None? && CdnStage(cdn).None? && CacheStage(contentType, inBrowser, cacheFile).None?
    ensures SdkStage(sdk).Some? ==> r.requests == [SdkQueryFor(contentType, limit)]
    ensures SdkStage(sdk).None? && CdnStage(cdn).Some? ==>
      r.requests == [SdkQueryFor(contentType, limit), CdnEntriesGet(contentType, limit)]
    ensures SdkStage(sdk).None? && CdnStage(cdn).None? ==>
      r.requests == FallbackRequests(contentType, limit, inBrowser)
  {
    RunStages(contentType, limit, SdkStage(sdk), cdn, inBrowser, cacheFile)
  }

  /** A blog post found only on the CDN is what `fetchEntries` returns when the
      SDK answers with an empty list. */
  lemma CdnFallbackScenario(inBrowser: bool, cacheFile: HttpOutcome)
    ensures var post := Obj([("uid", Str("p1")), ("title", Str("Hello"))]);
      var cdn := Response(true, Success(Obj([("entries", Arr([post]))])));
      FetchEntries("blog_post", DefaultLimit, Success(NoEntries), cdn, inBrowser, cacheFile).entries == Arr([post])
  {
  }

  /** The SDK's usual answer `[{entries: [p]}]` is returned as written, after
      the SDK request alone. */
  lemma WrappedSdkScenario(inBrowser: bool, cdn: HttpOutcome, cacheFile: HttpOutcome)
    ensures var p := Obj([("uid", Str("p"))]);
      var sdk := Success(Arr([Obj([("entries", Arr([p]))])]));
      FetchEntries("about_page", DefaultLimit, sdk, cdn, inBrowser, cacheFile)
        == FetchRun(Arr([p]), [SdkQueryFor("about_page", DefaultLimit)])
  {
    var p := Obj([("uid", Str("p"))]);
    AsWrittenKeepsWrappedShapes(WrappedInArray([p], []));
  }

  /** An SDK answer that is a bare array of entries is dropped as written: the
      CDN's entries are returned after two requests. With the corrected
      normalisation the SDK's own entries are returned after one. */
  lemma BareArrayScenario(inBrowser: bool, cacheFile: HttpOutcome)
    ensures var a := Obj([("uid", Str("a"))]);
      var b := Obj([("uid", Str("b"))]);
      var sdk := Success(Arr([a]));
      var cdn := Response(true, Success(Obj([("entries", Arr([b]))])));
      && FetchEntries("services_page", DefaultLimit, sdk, cdn, inBrowser, cacheFile)
           == FetchRun(Arr([b]), [SdkQueryFor("services_page", DefaultLimit), CdnEntriesGet("services_page", DefaultLimit)])
      && FetchEntriesCorrected("services_page", DefaultLimit, sdk, cdn, inBrowser, cacheFile)
           == FetchRun(Arr([a]), [SdkQueryFor("services_page", DefaultLimit)])
  {
    var a := Obj([("uid", Str("a"))]);
    AsWrittenLosesBareArray([a]);
  }

  // ---------------------------------------------------------------------
  // fetchEntryByUID

  /** The SDK's entry object: its value, and what `entry.toJSON()` returns
      when the object has such a method. */
  datatype SdkEntry = SdkEntry(value: Value, toJson: Option<Value>)

  datatype EntryRun = EntryRun(result: Result<Value>, requests: seq<Request>)

  /** The entry the CDN single-entry endpoint yields, if any
      (src/contentstackClient.js lines 110-114): the truthy `entry` field of a
      successfully parsed, truthy body of an `ok` response. */
  function CdnEntry(resp: HttpOutcome): (r: Option<Value>)
    ensures r.Some? <==>
      && resp.Response? && resp.ok && resp.body.Success?
      && Truthy(resp.body.value) && Truthy(Get(resp.body.value, "entry"))
    ensures r.Some? ==> r.value == Get(resp.body.value, "entry")
  {
    if resp.Response? && resp.ok && resp.body.Success? && Truthy(resp.body.value)
       && Truthy(Get(resp.body.value, "entry"))
    then Some(Get(resp.body.value, "entry"))
    else None
  }

  /** `fetchEntryByUID`: the SDK entry (through `toJSON()` when the entry has
      it); after an SDK failure, the CDN's `entry`; and otherwise the SDK's own
      error is re-thrown, never the CDN's. */
  function FetchEntryByUid(contentType: string, uid: string, sdk: Result<SdkEntry>, cdn: HttpOutcome): (r: EntryRun)
    ensures sdk.Success? ==> r.requests == [SdkEntryFetch(contentType, uid)]
    ensures sdk.Success? && Truthy(sdk.value.value) && sdk.value.toJson.Some? ==>
      r.result == Success(sdk.value.toJson.value)
    ensures sdk.Success? && !(Truthy(sdk.value.value) && sdk.value.toJson.Some?) ==>
      r.result == Success(sdk.value.value)
    ensures sdk.Failure? ==>
      && r.requests == [SdkEntryFetch(contentType, uid), CdnEntryGet(contentType, uid)]
      && (r.result.Success? <==> CdnEntry(cdn).Some?)
      && (r.result.Success? ==> r.result.value == CdnEntry(cdn).value)
      && (r.result.Failure? ==> r.result.error == sdk.error)
  {
    var fetchSdk := SdkEntryFetch(contentType, uid);
    match sdk
    case Success(entry) =>
      if Truthy(entry.value) && entry.toJson.Some? then EntryRun(Success(entry.toJson.value), [fetchSdk])
      else EntryRun(Success(entry.value), [fetchSdk])
    case Failure(err) =>
      var requests := [fetchSdk, CdnEntryGet(contentType, uid)];
      match CdnEntry(cdn)
      case Some(entry) => EntryRun(Success(entry), requests)
      case None => EntryRun(Failure(err), requests)
  }

  /** `fetchCache`: the parsed cache file, or null outside a browser and on any failure. */
  function FetchCache(inBrowser: bool, resp: HttpOutcome): (r: Value)
    ensures !inBrowser ==> r == Null
    ensures inBrowser && resp.Response? && resp.ok && resp.body.Success? ==> r == resp.body.value
    ensures r != Null ==> resp == Response(true, Success(r))
  {
    if inBrowser && resp.Response? && resp.ok && resp.body.Success? then resp.body.value else Null
  }

  // ---------------------------------------------------------------------
  // The persisted sync token

  /** Whether `localStorage` is missing, throws on every access, or works. */
  datatype StorageMode = Missing | Throwing | Working

  const SyncTokenKey := "cs_sync_token"

  /** `getStoredSyncToken` over a storage in the given mode: null whenever the
      storage is missing or throws. */
  function ReadToken(mode: StorageMode, storage: map<string, string>): (t: Option<string>)
    ensures t.Some? <==> mode == Working && SyncTokenKey in storage
  {
    if mode == Working && SyncTokenKey in storage then Some(storage[SyncTokenKey]) else None
  }

  /** `setStoredSyncToken(token)`: a falsy token removes the key, any other is
      stored as its string form; errors leave the storage as it was. Other keys
      are never touched. */
  function StoreToken(mode: StorageMode, storage: map<string, string>, token: Value): (r: map<string, string>)
    ensures forall k :: k != SyncTokenKey ==> (k in r <==> k in storage)
    ensures forall k :: k != SyncTokenKey && k in r ==> r[k] == storage[k]
  {
    if mode != Working then storage
    else if !Truthy(token) then storage - {SyncTokenKey}
    else storage[SyncTokenKey := StringForm(token)]
  }

  /** Storing a non-empty token string and reading it back gives that string. */
  lemma TokenRoundTrip(storage: map<string, string>, token: string)
    requires token != []
    ensures ReadToken(Working, StoreToken(Working, storage, Str(token))) == Some(token)
  {
  }

  /** Storing a falsy token clears it. */
  lemma FalsyTokenClears(storage: map<string, string>, token: Value)
    requires !Truthy(token)
    ensures ReadToken(Working, StoreToken(Working, storage, token)).None?
  {
  }

  /** The sync query for a stored token: `{init: true}` unless a non-empty token is stored. */
  datatype SyncQuery = Init | WithToken(token: string)

  function QueryFor(token: Option<string>): (q: SyncQuery)
    ensures q.Init? <==> token.None? || token.value == []
    ensures q.WithToken? ==> q.token == token.value
  {
    if token.Some? && token.value != [] then WithToken(token.value) else Init
  }

  /** After a falsy token is written back, the next sync bootstraps with `init=true`. */
  lemma ClearedTokenBootstraps(mode: StorageMode, storage: map<string, string>, token: Value)
    requires !Truthy(token)
    ensures QueryFor(ReadToken(mode, StoreToken(mode, storage, token))) == Init
  {
    if mode == Working {
      FalsyTokenClears(storage, token);
    }
  }

  // ---------------------------------------------------------------------
  // startSync and performFullSync

  /** The capabilities of the runtime: a `window`, a `CustomEvent` constructor,
      an SDK `sync` function, and the state of `localStorage`. */
  datatype Env = Env(inBrowser: bool, hasCustomEvent: bool, sdkHasSync: bool, storage: StorageMode)

  predicate CanDispatch(env: Env) {
    env.inBrowser && env.hasCustomEvent
  }

  predicate SdkSyncAvailable(env: Env) {
    env.inBrowser && env.sdkHasSync
  }

  datatype SyncRequest = SdkSync(query: SyncQuery) | HttpSync(query: SyncQuery)

  /** Window events: `cs:sync` with its payload, and `cs:data-updated`. */
  datatype Event = CsSync(detail: Value) | DataUpdated(updatedItems: int, syncToken: Value)

  /** True when the SDK path of `startSync` runs and resolves (src/contentstackClient.js lines 152-158). */
  predicate SdkPathSucceeds(env: Env, q: SyncQuery, sdkSync: SyncQuery -> Result<Value>) {
    SdkSyncAvailable(env) && sdkSync(q).Success?
  }

  /** What `startSync` resolves to or throws. */
  function SyncResult(env: Env, q: SyncQuery, sdkSync: SyncQuery -> Result<Value>,
                      httpSync: SyncQuery -> Result<Value>): Result<Value> {
    if SdkPathSucceeds(env, q, sdkSync) then sdkSync(q) else httpSync(q)
  }

  /** The sync requests `startSync` issues. */
  function SyncRequests(env: Env, q: SyncQuery, sdkSync: SyncQuery -> Result<Value>): seq<SyncRequest> {
    if SdkPathSucceeds(env, q, sdkSync) then [SdkSync(q)]
    else if SdkSyncAvailable(env) then [SdkSync(q), HttpSync(q)]
    else [HttpSync(q)]
  }

  /** The events `startSync` dispatches: `cs:sync` only after the HTTP path succeeded. */
  function SyncEvents(env: Env, q: SyncQuery, sdkSync: SyncQuery -> Result<Value>,
                      httpSync: SyncQuery -> Result<Value>): seq<Event> {
    if !SdkPathSucceeds(env, q, sdkSync) && httpSync(q).Success? && CanDispatch(env)
    then [CsSync(httpSync(q).value)]
    else []
  }

  /** `res && res.sync_token`: the token a sync payload carries, when it carries one. */
  function PayloadToken(v: Value): Value {
    if Truthy(v) then Get(v, "sync_token") else Undefined
  }

  /** The storage after a sync settled with r: a truthy `sync_token` replaces the stored one. */
  function StorageAfterSync(mode: StorageMode, storage: map<string, string>, r: Result<Value>): map<string, string> {
    if r.Success? && Truthy(PayloadToken(r.value)) then StoreToken(mode, storage, PayloadToken(r.value))
    else storage
  }

  /** `syncResult.items.length` when `syncResult && syncResult.items` holds. */
  function ItemsLength(v: Value): Value {
    if Truthy(v) && Truthy(Get(v, "items")) then Get(Get(v, "items"), "length") else Undefined
  }

  /** The `cs:data-updated` event `performFullSync` adds after a sync settled with r. */
  function DataUpdatedEvents(env: Env, r: Result<Value>): seq<Event> {
    if r.Success? && ItemsLength(r.value).Num? && ItemsLength(r.value).n > 0 && CanDispatch(env)
    then [DataUpdated(ItemsLength(r.value).n, Get(r.value, "sync_token"))]
    else []
  }

  /** An SDK failure never surfaces: a sync fails only when the HTTP fallback
      ran and failed, and then with the fallback's own error. */
  lemma SyncFailsOnlyOnHttpPath(env: Env, q: SyncQuery, sdkSync: SyncQuery -> Result<Value>,
                                httpSync: SyncQuery -> Result<Value>)
    ensures SyncResult(env, q, sdkSync, httpSync).Failure? ==>
      SyncRequests(env, q, sdkSync)[|SyncRequests(env, q, sdkSync)| - 1] == HttpSync(q)
      && SyncResult(env, q, sdkSync, httpSync) == httpSync(q)
  {
  }

  /** `cs:sync` is dispatched only on the HTTP path, carrying the payload returned. */
  lemma CsSyncOnlyOnHttpPath(env: Env, q: SyncQuery, sdkSync: SyncQuery -> Result<Value>,
                             httpSync: SyncQuery -> Result<Value>)
    ensures SyncEvents(env, q, sdkSync, httpSync) != [] ==>
      HttpSync(q) in SyncRequests(env, q, sdkSync)
      && SyncEvents(env, q, sdkSync, httpSync) == [CsSync(SyncResult(env, q, sdkSync, httpSync).value)]
  {
  }

  /** `cs:data-updated` fires exactly when a dispatch-capable runtime got a
      payload with a non-empty `items`, and reports its length. */
  lemma DataUpdatedIffItems(env: Env, r: Result<Value>)
    ensures DataUpdatedEvents(env, r) != [] <==>
      CanDispatch(env) && r.Success? && ItemsLength(r.value).Num? && ItemsLength(r.value).n > 0
    ensures DataUpdatedEvents(env, r) != [] ==>
      DataUpdatedEvents(env, r) == [DataUpdated(ItemsLength(r.value).n, Get(r.value, "sync_token"))]
    ensures CanDispatch(env) && r.Success? && Truthy(r.value) && Get(r.value, "items").Arr?
            && Get(r.value, "items").items != [] ==>
      DataUpdatedEvents(env, r) == [DataUpdated(|Get(r.value, "items").items|, Get(r.value, "sync_token"))]
  {
  }

  /** The sync scenario from a fresh storage: the token is stored and one item is reported. */
  lemma BootstrapScenario(httpSync: SyncQuery -> Result<Value>, sdkSync: SyncQuery -> Result<Value>)
    requires httpSync(Init) == Success(Obj([("items", Arr([Obj([("uid", Str("x"))])])), ("sync_token", Str("tok1"))]))
    ensures var env := Env(true, true, false, Working);
      var q := QueryFor(ReadToken(Working, map[]));
      var r := SyncResult(env, q, sdkSync, httpSync);
      && q == Init
      && ReadToken(Working, StorageAfterSync(Working, map[], r)) == Some("tok1")
      && DataUpdatedEvents(env, r) == [DataUpdated(1, Str("tok1"))]
  {
  }

  // ---------------------------------------------------------------------
  // The module state: storage, dispatched events, the auto-sync interval

  /** The client module's mutable surroundings: the `localStorage` map, the
      events dispatched so far, the `autoSyncInterval` handle and the table of
      live intervals (handle to delay in milliseconds). */
  class SyncClient {
    const env: Env
    var storage: map<string, string>
    var events: seq<Event>
    var autoSyncInterval: Option<nat>
    var timers: map<nat, int>
    var nextHandle: nat

    /** At most one interval is live, and it is the one the handle names. */
    ghost predicate Valid()
      reads this
    {
      && (autoSyncInterval.None? ==> timers == map[])
      && (autoSyncInterval.Some? ==> timers.Keys == {autoSyncInterval.value})
      && nextHandle > 0
      && (forall h :: h in timers ==> 0 < h < nextHandle)
    }

    constructor (env: Env, storage: map<string, string>)
      ensures Valid()
      ensures this.env == env && this.storage == storage
      ensures events == [] && autoSyncInterval == None && timers == map[]
    {
      this.env := env;
      this.storage := storage;
      events := [];
      autoSyncInterval := None;
      timers := map[];
      nextHandle := 1;
    }

    /** `getStoredSyncToken`: a token exactly when storage works and holds one. */
    function StoredSyncToken(): (t: Option<string>)
      reads this
      ensures t.Some? <==> env.storage == Working && SyncTokenKey in storage
      ensures t.Some? ==> t.value == storage[SyncTokenKey]
    {
      ReadToken(env.storage, storage)
    }

    /** `setStoredSyncToken`. */
    method SetStoredSyncToken(token: Value)
      modifies this
      ensures storage == StoreToken(env.storage, old(storage), token)
      ensures events == old(events) && autoSyncInterval == old(autoSyncInterval)
      ensures timers == old(timers) && nextHandle == old(nextHandle)
    {
      if env.storage != Working {
        return;
      }
      if !Truthy(token) {
        storage := storage - {SyncTokenKey};
        return;
      }
      storage := storage[SyncTokenKey := StringForm(token)];
    }

    /** `startSync`: the SDK sync when the runtime offers one, else (or after
        it threw) the HTTP sync endpoint. Both send the query chosen by the
        stored token; a payload carrying `sync_token` replaces the stored token. */
    method StartSync(sdkSync: SyncQuery -> Result<Value>, httpSync: SyncQuery -> Result<Value>)
      returns (r: Result<Value>, requests: seq<SyncRequest>)
      modifies this
      ensures var q := QueryFor(old(StoredSyncToken()));
        && r == SyncResult(env, q, sdkSync, httpSync)
        && requests == SyncRequests(env, q, sdkSync)
        && events == old(events) + SyncEvents(env, q, sdkSync, httpSync)
      ensures storage == StorageAfterSync(env.storage, old(storage), r)
      ensures autoSyncInterval == old(autoSyncInterval) && timers == old(timers) && nextHandle == old(nextHandle)
    {
      requests := [];
      if SdkSyncAvailable(env) {
        var token := StoredSyncToken();
        var query := QueryFor(token);
        var res := sdkSync(query);
        requests := [SdkSync(query)];
        if res.Success? {
          if Truthy(PayloadToken(res.value)) {
            SetStoredSyncToken(PayloadToken(res.value));
          }
          r := res;
          return;
        }
      }
      var token := StoredSyncToken();
      var query := QueryFor(token);
      var data := httpSync(query);
      requests := requests + [HttpSync(query)];
      if data.Failure? {
        r := data;
        return;
      }
      if Truthy(PayloadToken(data.value)) {
        SetStoredSyncToken(PayloadToken(data.value));
      }
      if CanDispatch(env) {
        events := events + [CsSync(data.value)];
      }
      r := data;
    }

    /** `performFullSync`: `startSync`, then `cs:data-updated` when items arrived;
        failures are re-thrown. */
    method PerformFullSync(sdkSync: SyncQuery -> Result<Value>, httpSync: SyncQuery -> Result<Value>)
      returns (r: Result<Value>, requests: seq<SyncRequest>)
      modifies this
      ensures var q := QueryFor(old(StoredSyncToken()));
        && r == SyncResult(env, q, sdkSync, httpSync)
        && requests == SyncRequests(env, q, sdkSync)
        && events == old(events) + SyncEvents(env, q, sdkSync, httpSync) + DataUpdatedEvents(env, r)
      ensures storage == StorageAfterSync(env.storage, old(storage), r)
      ensures autoSyncInterval == old(autoSyncInterval) && timers == old(timers) && nextHandle == old(nextHandle)
    {
      r, requests := StartSync(sdkSync, httpSync);
      if r.Success? && ItemsLength(r.value).Num? && ItemsLength(r.value).n > 0 && CanDispatch(env) {
        events := events + [DataUpdated(ItemsLength(r.value).n, Get(r.value, "sync_token"))];
      }
    }

    /** `startAutoSync(intervalMinutes)`: clears any running interval and starts
        one new interval, so exactly one is live afterwards. */
    method StartAutoSync(intervalMinutes: int := DefaultAutoSyncMinutes)
      requires Valid()
      modifies this
      ensures Valid()
      ensures autoSyncInterval.Some? && autoSyncInterval.value !in old(timers)
      ensures timers == map[autoSyncInterval.value := intervalMinutes * 60 * 1000]
      ensures storage == old(storage) && events == old(events)
    {
      if autoSyncInterval.Some? {
        timers := timers - {autoSyncInterval.value};
      }
      var handle := nextHandle;
      nextHandle := nextHandle + 1;
      timers := timers[handle := intervalMinutes * 60 * 1000];
      autoSyncInterval := Some(handle);
    }

    /** `stopAutoSync`: clears the running interval, if any. */
    method StopAutoSync()
      requires Valid()
      modifies this
      ensures Valid()
      ensures autoSyncInterval == None && timers == map[]
      ensures old(autoSyncInterval).None? ==> timers == old(timers)
      ensures storage == old(storage) && events == old(events) && nextHandle == old(nextHandle)
    {
      if autoSyncInterval.Some? {
        timers := timers - {autoSyncInterval.value};
        autoSyncInterval := None;
      }
    }

    /** One firing of the auto-sync interval: a full sync whose failure is
        swallowed, leaving the interval running. */
    method AutoSyncTick(sdkSync: SyncQuery -> Result<Value>, httpSync: SyncQuery -> Result<Value>)
      requires Valid() && autoSyncInterval.Some?
      modifies this
      ensures Valid()
      ensures autoSyncInterval == old(autoSyncInterval) && timers == old(timers)
      ensures var q := QueryFor(old(StoredSyncToken()));
        var r := SyncResult(env, q, sdkSync, httpSync);
        && events == old(events) + SyncEvents(env, q, sdkSync, httpSync) + DataUpdatedEvents(env, r)
        && storage == StorageAfterSync(env.storage, old(storage), r)
    {
      var r, _ := PerformFullSync(sdkSync, httpSync);
    }
  }
}
