/** The sync manager: a small state machine over `isInitialized`,
    `syncInProgress` and `lastSyncTime` that runs an initial full sync, starts
    the five-minute auto-sync, serves manual sync requests and shuts down.
    The clock is a parameter (`now`, in milliseconds). */
module ContentstackSync {
  import opened Wrappers
  import opened JsValue
  import opened ContentstackClient

  /** What `getStatus` returns. */
  datatype Status = Status(isInitialized: bool, lastSyncTime: Option<int>, syncInProgress: bool)

  /** The auto-sync period, in minutes, that `initialize` starts. */
  const InitialAutoSyncMinutes := 5

  class ContentstackSyncManager {
    const client: SyncClient
    var isInitialized: bool
    var lastSyncTime: Option<int>
    var syncInProgress: bool

    constructor (client: SyncClient)
      ensures this.client == client
      ensures !isInitialized && lastSyncTime == None && !syncInProgress
    {
      this.client := client;
      isInitialized := false;
      lastSyncTime := None;
      syncInProgress := false;
    }

    /** `performInitialSync`: never throws. A successful full sync records
        `now` and returns the payload; a failed one returns null and leaves
        `lastSyncTime` alone. Either way the busy flag ends cleared. */
    method PerformInitialSync(now: int, sdkSync: SyncQuery -> Result<Value>, httpSync: SyncQuery -> Result<Value>)
      returns (r: Value)
      requires client.Valid()
      modifies this, client
      ensures client.Valid()
      ensures !syncInProgress && isInitialized == old(isInitialized)
      ensures var outcome := SyncResult(client.env, QueryFor(old(client.StoredSyncToken())), sdkSync, httpSync);
        && (outcome.Success? ==> r == outcome.value && lastSyncTime == Some(now))
        && (outcome.Failure? ==> r == Null && lastSyncTime == old(lastSyncTime))
      ensures var q := QueryFor(old(client.StoredSyncToken()));
        var outcome := SyncResult(client.env, q, sdkSync, httpSync);
        && client.storage == StorageAfterSync(client.env.storage, old(client.storage), outcome)
        && client.events == old(client.events) + SyncEvents(client.env, q, sdkSync, httpSync)
                                               + DataUpdatedEvents(client.env, outcome)
      ensures client.autoSyncInterval == old(client.autoSyncInterval) && client.timers == old(client.timers)
    {
      syncInProgress := true;
      var result, _ := client.PerformFullSync(sdkSync, httpSync);
      if result.Success? {
        lastSyncTime := Some(now);
        r := result.value;
      } else {
        r := Null;
      }
      syncInProgress := false;
    }

    /** `initialize`: a no-op returning undefined (None) when already
        initialised; otherwise the initial sync, which cannot throw, then
        `startAutoSync(5)`, and the manager is initialised (returns true). */
    method Initialize(now: int, sdkSync: SyncQuery -> Result<Value>, httpSync: SyncQuery -> Result<Value>)
      returns (r: Option<bool>)
      requires client.Valid()
      modifies this, client
      ensures client.Valid()
      ensures old(isInitialized) ==>
        && r == None && isInitialized
        && lastSyncTime == old(lastSyncTime) && syncInProgress == old(syncInProgress)
        && client.storage == old(client.storage) && client.events == old(client.events)
        && client.autoSyncInterval == old(client.autoSyncInterval) && client.timers == old(client.timers)
      ensures !old(isInitialized) ==>
        && r == Some(true) && isInitialized && !syncInProgress
        && client.autoSyncInterval.Some?
        && client.timers == map[client.autoSyncInterval.value := InitialAutoSyncMinutes * 60 * 1000]
      ensures !old(isInitialized) ==>
        var q := QueryFor(old(client.StoredSyncToken()));
        var outcome := SyncResult(client.env, q, sdkSync, httpSync);
        && lastSyncTime == (if outcome.Success? then Some(now) else old(lastSyncTime))
        && client.storage == StorageAfterSync(client.env.storage, old(client.storage), outcome)
        && client.events == old(client.events) + SyncEvents(client.env, q, sdkSync, httpSync)
                                               + DataUpdatedEvents(client.env, outcome)
    {
      if isInitialized {
        return None;
      }
      var _ := PerformInitialSync(now, sdkSync, httpSync);
      client.StartAutoSync(InitialAutoSyncMinutes);
      isInitialized := true;
      r := Some(true);
    }

    /** `triggerSync`: skipped (undefined, no request) while a sync is in
        progress; otherwise a full sync that records `now` on success and
        re-throws on failure, the busy flag cleared either way. */
    method TriggerSync(now: int, sdkSync: SyncQuery -> Result<Value>, httpSync: SyncQuery -> Result<Value>)
      returns (r: Result<Option<Value>>, requests: seq<SyncRequest>)
      requires client.Valid()
      modifies this, client
      ensures client.Valid()
      ensures isInitialized == old(isInitialized)
      ensures client.autoSyncInterval == old(client.autoSyncInterval) && client.timers == old(client.timers)
      ensures old(syncInProgress) ==>
        && r == Success(None) && requests == [] && syncInProgress
        && lastSyncTime == old(lastSyncTime)
        && client.storage == old(client.storage) && client.events == old(client.events)
      ensures !old(syncInProgress) ==>
        var outcome := SyncResult(client.env, QueryFor(old(client.StoredSyncToken())), sdkSync, httpSync);
        && !syncInProgress
        && requests == SyncRequests(client.env, QueryFor(old(client.StoredSyncToken())), sdkSync)
        && (outcome.Success? ==> r == Success(Some(outcome.value)) && lastSyncTime == Some(now))
        && (outcome.Failure? ==> r == Failure(outcome.error) && lastSyncTime == old(lastSyncTime))
        && client.storage == StorageAfterSync(client.env.storage, old(client.storage), outcome)
        && client.events == old(client.events)
             + SyncEvents(client.env, QueryFor(old(client.StoredSyncToken())), sdkSync, httpSync)
             + DataUpdatedEvents(client.env, outcome)
    {
      if syncInProgress {
        return Success(None), [];
      }
      syncInProgress := true;
      var result;
      result, requests := client.PerformFullSync(sdkSync, httpSync);
      if result.Success? {
        lastSyncTime := Some(now);
        r := Success(Some(result.value));
      } else {
        r := Failure(result.error);
      }
      syncInProgress := false;
    }

    /** `getStatus`: the three fields' current values. */
    function GetStatus(): (s: Status)
      reads this
      ensures s.isInitialized == isInitialized && s.lastSyncTime == lastSyncTime
      ensures s.syncInProgress == syncInProgress
    {
      Status(isInitialized, lastSyncTime, syncInProgress)
    }

    /** `shutdown`: stops auto-sync and clears `isInitialized`, so that a later
        `initialize` runs again. */
    method Shutdown()
      requires client.Valid()
      modifies this, client
      ensures client.Valid()
      ensures !isInitialized && lastSyncTime == old(lastSyncTime) && syncInProgress == old(syncInProgress)
      ensures client.autoSyncInterval == None && client.timers == map[]
      ensures client.storage == old(client.storage) && client.events == old(client.events)
    {
      client.StopAutoSync();
      isInitialized := false;
    }
  }
}
