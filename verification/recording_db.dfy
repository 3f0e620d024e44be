/**
 * The recording store of src/recordingDB.js: one IndexedDB object store,
 * `recordings`, keyed by the record's `id`, behind a database handle that is
 * opened once and then cached.
 *
 * The object store is a map from id to record. Each operation runs
 * synchronously; whether opening the database and whether the request
 * succeed are parameters (`openOk`, `requestOk`), so that both the resolve
 * and the reject paths are modelled. `Date.now()` is the parameter `now`.
 */
module RecordingDB {
  import opened Common

  /**
   * The record `saveRecordingWithId` writes: exactly these six fields, and
   * no session id.
   */
  datatype Recording = Recording(
    id: string,
    events: seq<Event>,
    url: string,
    title: string,
    timestamp: int,
    tabId: Option<int>)

  datatype StoreError =
    | OpenFailed     // indexedDB.open rejected
    | RequestFailed  // the request's onerror fired
    | InvalidKey     // the key is not a valid IndexedDB key (undefined)

  datatype Result<T> = Ok(value: T) | Err(error: StoreError)

  /** A map whose every record is filed under its own id (`keyPath: "id"`). */
  ghost predicate KeyedById(m: map<string, Recording>) {
    forall k :: k in m ==> m[k].id == k
  }

  /**
   * What `objectStore.getAll()` yields: every stored record, each once.
   */
  method AllValues(m: map<string, Recording>) returns (all: seq<Recording>)
    requires KeyedById(m)
    ensures |all| == |m|
    ensures forall r :: r in all <==> r in m.Values
    ensures forall i, j :: 0 <= i < j < |all| ==> all[i].id != all[j].id
  {
    all := [];
    var remaining := m.Keys;
    ghost var taken: set<string> := {};
    while remaining != {}
      invariant remaining <= m.Keys
      invariant taken == m.Keys - remaining
      invariant |all| == |taken|
      invariant forall i :: 0 <= i < |all| ==> all[i].id in taken && m[all[i].id] == all[i]
      invariant forall k :: k in taken ==> m[k] in all
      invariant forall i, j :: 0 <= i < j < |all| ==> all[i].id != all[j].id
      decreases remaining
    {
      var k :| k in remaining;
      assert k !in taken;
      all := all + [m[k]];
      remaining := remaining - {k};
      taken := taken + {k};
    }
    forall r | r in m.Values
      ensures r in all
    {
      var k :| k in m && m[k] == r;
    }
  }

  class Store {
    /** The cached database handle of `initDB`: `db != null`. */
    var handleCached: bool
    /** How many times the database was opened. */
    ghost var opens: nat
    /** The contents of the `recordings` object store. */
    var records: map<string, Recording>

    ghost predicate Valid()
      reads this
    {
      KeyedById(records)
    }

    /** A fresh background process: no handle yet, over what was persisted earlier. */
    constructor (persisted: map<string, Recording>)
      requires KeyedById(persisted)
      ensures Valid()
      ensures !handleCached && opens == 0 && records == persisted
    {
      handleCached := false;
      opens := 0;
      records := persisted;
    }

    /**
     * `initDB`: returns the cached handle without reopening when there is
     * one; otherwise opens the database and caches the handle on success.
     */
    method InitDB(openOk: bool) returns (ok: bool)
      modifies this`handleCached, this`opens
      ensures old(handleCached) ==> ok && handleCached && opens == old(opens)
      ensures !old(handleCached) ==> ok == openOk && handleCached == openOk && opens == old(opens) + 1
    {
      if handleCached {
        return true;
      }
      opens := opens + 1;
      if openOk {
        handleCached := true;
        return true;
      }
      return false;
    }

    /**
     * `saveRecordingWithId`: puts the six-field record under its id,
     * replacing any record with that id, and resolves with it. Its optional
     * parameters default to an empty url and title and a null tab id.
     */
    method SaveRecordingWithId(openOk: bool, requestOk: bool, now: int,
                               recordingId: string, events: seq<Event>,
                               url: string := "", title: string := "", tabId: Option<int> := None)
      returns (r: Result<Recording>)
      requires Valid()
      modifies this
      ensures Valid()
      ensures handleCached == (old(handleCached) || openOk)
      ensures opens == if old(handleCached) then old(opens) else old(opens) + 1
      ensures r.Ok? <==> (old(handleCached) || openOk) && requestOk
      ensures r.Ok? ==> r.value == Recording(recordingId, events, url, title, now, tabId)
      ensures r.Ok? ==> records == old(records)[recordingId := r.value]
      ensures r.Err? ==> records == old(records)
      ensures r.Err? ==> r.error == if old(handleCached) || openOk then RequestFailed else OpenFailed
    {
      var ready := InitDB(openOk);
      if !ready {
        return Err(OpenFailed);
      }
      var rec := Recording(recordingId, events, url, title, now, tabId);
      if !requestOk {
        return Err(RequestFailed);
      }
      records := records[recordingId := rec];
      return Ok(rec);
    }

    /** `getAllRecordings`: resolves with every stored record. */
    method GetAllRecordings(openOk: bool, requestOk: bool) returns (r: Result<seq<Recording>>)
      requires Valid()
      modifies this`handleCached, this`opens
      ensures handleCached == (old(handleCached) || openOk)
      ensures opens == if old(handleCached) then old(opens) else old(opens) + 1
      ensures r.Ok? <==> (old(handleCached) || openOk) && requestOk
      ensures r.Ok? ==> |r.value| == |records| && forall x :: x in r.value <==> x in records.Values
      ensures r.Ok? ==> forall i, j :: 0 <= i < j < |r.value| ==> r.value[i].id != r.value[j].id
      ensures r.Err? ==> r.error == if old(handleCached) || openOk then RequestFailed else OpenFailed
    {
      var ready := InitDB(openOk);
      if !ready {
        return Err(OpenFailed);
      }
      if !requestOk {
        return Err(RequestFailed);
      }
      var all := AllValues(records);
      return Ok(all);
    }

    /**
     * `deleteRecordingById`: removes the record under `id` and nothing else
     * (an absent id is not an error); an undefined id is rejected.
     */
    method DeleteRecordingById(openOk: bool, requestOk: bool, id: Option<string>) returns (r: Result<()>)
      requires Valid()
      modifies this
      ensures Valid()
      ensures handleCached == (old(handleCached) || openOk)
      ensures opens == if old(handleCached) then old(opens) else old(opens) + 1
      ensures r.Ok? <==> (old(handleCached) || openOk) && id.Some? && requestOk
      ensures r.Ok? ==> records == old(records) - {id.value}
      ensures r.Err? ==> records == old(records)
    {
      var ready := InitDB(openOk);
      if !ready {
        return Err(OpenFailed);
      }
      if id.None? {
        return Err(InvalidKey);
      }
      if !requestOk {
        return Err(RequestFailed);
      }
      records := records - {id.value};
      return Ok(());
    }

    /** `clearAllRecordings`: empties the object store. */
    method ClearAllRecordings(openOk: bool, requestOk: bool) returns (r: Result<()>)
      requires Valid()
      modifies this
      ensures Valid()
      ensures handleCached == (old(handleCached) || openOk)
      ensures opens == if old(handleCached) then old(opens) else old(opens) + 1
      ensures r.Ok? <==> (old(handleCached) || openOk) && requestOk
      ensures r.Ok? ==> records == map[]
      ensures r.Err? ==> records == old(records)
    {
      var ready := InitDB(openOk);
      if !ready {
        return Err(OpenFailed);
      }
      if !requestOk {
        return Err(RequestFailed);
      }
      records := map[];
      return Ok(());
    }
  }
}
