/**
 * The background coordinator of background.js: the module-level recording
 * state, the `chrome.runtime.onMessage` handler (one method per message type)
 * and the `chrome.tabs.onActivated` hand-off of recording from one tab to
 * another.
 *
 * Ids minted from `Date.now()` and `Math.random()`, the results of
 * `chrome.tabs.get` and `chrome.tabs.sendMessage`, and the outcome of the
 * IndexedDB requests are parameters. The hand-off's 500 ms timer splits it
 * into `BeginHandoff` (before the timer) and `CompleteHandoff` (when it
 * fires); anything may happen in between.
 */
module Background {
  import opened Common
  import RecordingDB

  type TabId = int

  /** JavaScript truthiness of a nullable tab id: tab id 0 is falsy too. */
  predicate TruthyTab(t: Option<TabId>) {
    t.Some? && t.value != 0
  }

  /** JavaScript truthiness of a nullable string: the empty string is falsy too. */
  predicate TruthyString(s: Option<string>) {
    s.Some? && s.value != ""
  }

  /** `String.prototype.startsWith`, compared character by character. */
  function StartsWith(s: string, prefix: string): bool {
    if prefix == [] then true
    else if s == [] then false
    else s[0] == prefix[0] && StartsWith(s[1..], prefix[1..])
  }

  /** `startsWith` holds exactly when `prefix` is a prefix of `s`. */
  lemma {:induction false} StartsWithIsPrefix(s: string, prefix: string)
    ensures StartsWith(s, prefix) <==> prefix <= s
  {
    if prefix != [] && s != [] {
      StartsWithIsPrefix(s[1..], prefix[1..]);
      assert prefix <= s <==> s[0] == prefix[0] && prefix[1..] <= s[1..];
    }
  }

  /**
   * The hand-off only records on a tab whose url is present, non-empty and
   * not a browser page (`chrome://`) or an extension page
   * (`chrome-extension://`).
   */
  predicate IsRecordableUrl(url: Option<string>) {
    && url.Some?
    && url.value != ""
    && !StartsWith(url.value, "chrome://")
    && !StartsWith(url.value, "chrome-extension://")
  }

  /** A url is recordable exactly when it is present and has neither excluded scheme as a prefix. */
  lemma RecordableUrlPrefixes(url: string)
    ensures IsRecordableUrl(Some(url)) <==>
      url != [] && !("chrome://" <= url) && !("chrome-extension://" <= url)
  {
    StartsWithIsPrefix(url, "chrome://");
    StartsWithIsPrefix(url, "chrome-extension://");
  }

  /** The `save-recording` message a content script sends. */
  datatype SaveMessage = SaveMessage(
    recordingId: Option<string>,
    url: Option<string>,
    title: Option<string>,
    events: Option<seq<Event>>,
    isFinalRecording: Option<bool>)

  /**
   * The six arguments the `save-recording` branch passes to
   * `saveRecordingWithId`; the store's function declares only the first
   * five, so `sessionId` goes nowhere.
   */
  datatype SaveCall = SaveCall(
    recordingId: string,
    events: seq<Event>,
    url: string,
    title: string,
    tabId: Option<TabId>,
    sessionId: string)

  /** What `save-recording` answers: the stored record has no `sessionId`, so that field is undefined. */
  datatype SaveResponse =
    | Saved(id: string, sessionId: Option<string>)
    | SaveFailed(error: RecordingDB.StoreError)

  /** What the passthrough branches answer. */
  datatype QueryResponse<T> = Success(value: T) | Failure(error: RecordingDB.StoreError)

  /** The work `chrome.tabs.onActivated` starts: stop `stopTab` now, try `startTab` after the timer. */
  datatype Handoff = NoHandoff | Handoff(stopTab: TabId, startTab: TabId)

  class Coordinator {
    /** Events relayed by `rrweb-event`. */
    var events: seq<Event>
    var isRecording: bool
    var currentRecordingTabId: Option<TabId>
    var currentSessionId: Option<string>
    /** The IndexedDB store the background page opens at load. */
    const store: RecordingDB.Store

    /** While recording there is always a session id. */
    ghost predicate Valid()
      reads this, store
    {
      && store.Valid()
      && (isRecording ==> TruthyString(currentSessionId))
    }

    /** The background page loading: empty state, and an `initDB()` whose failure is only logged. */
    constructor (store: RecordingDB.Store, openOk: bool)
      requires store.Valid()
      modifies store
      ensures Valid() && this.store == store
      ensures events == [] && !isRecording
      ensures currentRecordingTabId == None && currentSessionId == None
      ensures store.records == old(store.records)
      ensures store.handleCached == (old(store.handleCached) || openOk)
      ensures store.opens == if old(store.handleCached) then old(store.opens) else old(store.opens) + 1
    {
      events := [];
      isRecording := false;
      currentRecordingTabId := None;
      currentSessionId := None;
      this.store := store;
      new;
      var _ := store.InitDB(openOk);
    }

    /** `rrweb-event`: appends the event and changes nothing else. */
    method OnRrwebEvent(event: Event)
      modifies this`events
      ensures events == old(events) + [event]
    {
      events := events + [event];
    }

    /** `get-tab-id`: answers the sender's tab id, or null without a sender tab. */
    method OnGetTabId(senderTab: Option<TabId>) returns (tabId: Option<TabId>)
      ensures tabId == senderTab
    {
      tabId := senderTab;
    }

    /**
     * `recording-started`: the sender's tab becomes the recording tab; a
     * session id `session-<suffix>` is minted only when there is none, and
     * the current one is answered.
     */
    method OnRecordingStarted(senderTab: Option<TabId>, suffix: string) returns (sessionId: string)
      requires Valid()
      modifies this`isRecording, this`currentRecordingTabId, this`currentSessionId
      ensures Valid()
      ensures isRecording && currentRecordingTabId == senderTab
      ensures TruthyString(old(currentSessionId)) ==> currentSessionId == old(currentSessionId)
      ensures !TruthyString(old(currentSessionId)) ==> currentSessionId == Some("session-" + suffix)
      ensures currentSessionId == Some(sessionId)
    {
      isRecording := true;
      currentRecordingTabId := senderTab;
      if !TruthyString(currentSessionId) {
        currentSessionId := Some("session-" + suffix);
      }
      sessionId := currentSessionId.value;
    }

    /**
     * `recording-saved`: only logs, when the sender is the recording tab.
     * The result is that logging condition; what the branch promises is
     * that it changes nothing, which the empty frame (no `modifies`) states.
     */
    method OnRecordingSaved(senderTab: Option<TabId>) returns (fromRecordingTab: bool)
      ensures fromRecordingTab <==> senderTab.Some? && currentRecordingTabId == senderTab
    {
      fromRecordingTab := senderTab.Some? && currentRecordingTabId == senderTab;
    }

    /**
     * `save-recording`: saves the message's events under its recording id (a
     * fresh one when it has none) with the sender's tab id. The session id it
     * computes, the current one or else the recording id, is passed as a sixth
     * argument the store ignores. A successful final save ends the session; a
     * non-final or failed save changes no coordinator state.
     */
    method OnSaveRecording(msg: SaveMessage, senderTab: Option<TabId>, freshRecordingId: string,
                           now: int, openOk: bool, requestOk: bool)
      returns (call: SaveCall, response: SaveResponse)
      requires Valid()
      modifies this`isRecording, this`currentRecordingTabId, this`currentSessionId, store
      ensures Valid()
      ensures call.recordingId == if TruthyString(msg.recordingId) then msg.recordingId.value else freshRecordingId
      ensures call.url == (if TruthyString(msg.url) then msg.url.value else "")
      ensures call.title == (if TruthyString(msg.title) then msg.title.value else "")
      ensures call.events == msg.events.GetOr([])
      ensures call.tabId == senderTab
      ensures call.sessionId == if TruthyString(old(currentSessionId)) then old(currentSessionId).value else call.recordingId
      ensures response.Saved? <==> (old(store.handleCached) || openOk) && requestOk
      ensures response.Saved? ==>
        && response.id == call.recordingId
        && response.sessionId == None
        && store.records == old(store.records)[call.recordingId :=
             RecordingDB.Recording(call.recordingId, call.events, call.url, call.title, now, call.tabId)]
      ensures response.SaveFailed? ==> store.records == old(store.records)
      ensures store.handleCached == (old(store.handleCached) || openOk)
      ensures store.opens == if old(store.handleCached) then old(store.opens) else old(store.opens) + 1
      ensures response.Saved? && msg.isFinalRecording == Some(true) ==>
        currentSessionId == None && !isRecording && currentRecordingTabId == None
      ensures !(response.Saved? && msg.isFinalRecording == Some(true)) ==>
        && currentSessionId == old(currentSessionId)
        && isRecording == old(isRecording)
        && currentRecordingTabId == old(currentRecordingTabId)
    {
      var recordingId := if TruthyString(msg.recordingId) then msg.recordingId.value else freshRecordingId;
      var url := if TruthyString(msg.url) then msg.url.value else "";
      var title := if TruthyString(msg.title) then msg.title.value else "";
      var eventsToSave := msg.events.GetOr([]);
      var sessionId := if TruthyString(currentSessionId) then currentSessionId.value else recordingId;
      var isFinalRecording := msg.isFinalRecording == Some(true);
      call := SaveCall(recordingId, eventsToSave, url, title, senderTab, sessionId);
      var r := store.SaveRecordingWithId(openOk, requestOk, now, recordingId, eventsToSave, url, title, senderTab);
      if r.Err? {
        return call, SaveFailed(r.error);
      }
      if isFinalRecording {
        currentSessionId := None;
        isRecording := false;
        currentRecordingTabId := None;
      }
      response := Saved(r.value.id, None);
    }

    /** `get-all-recordings`: answers every stored record, or the store's error. */
    method OnGetAllRecordings(openOk: bool, requestOk: bool) returns (response: QueryResponse<seq<RecordingDB.Recording>>)
      requires Valid()
      modifies store`handleCached, store`opens
      ensures Valid()
      ensures response.Success? <==> (old(store.handleCached) || openOk) && requestOk
      ensures response.Success? ==>
        |response.value| == |store.records| && forall r :: r in response.value <==> r in store.records.Values
      ensures response.Success? ==>
        forall i, j :: 0 <= i < j < |response.value| ==> response.value[i].id != response.value[j].id
      ensures store.handleCached == (old(store.handleCached) || openOk)
      ensures store.opens == if old(store.handleCached) then old(store.opens) else old(store.opens) + 1
    {
      var r := store.GetAllRecordings(openOk, requestOk);
      response := if r.Ok? then Success(r.value) else Failure(r.error);
    }

    /** `delete-recording`: deletes `msg.recordingId` (undefined when absent) and answers success. */
    method OnDeleteRecording(recordingId: Option<string>, openOk: bool, requestOk: bool) returns (response: QueryResponse<()>)
      requires Valid()
      modifies store
      ensures Valid()
      ensures response.Success? <==> (old(store.handleCached) || openOk) && recordingId.Some? && requestOk
      ensures response.Success? ==> store.records == old(store.records) - {recordingId.value}
      ensures response.Failure? ==> store.records == old(store.records)
      ensures store.handleCached == (old(store.handleCached) || openOk)
      ensures store.opens == if old(store.handleCached) then old(store.opens) else old(store.opens) + 1
    {
      var r := store.DeleteRecordingById(openOk, requestOk, recordingId);
      response := if r.Ok? then Success(()) else Failure(r.error);
    }

    /** `clear-all-recordings`: empties the store and answers success. */
    method OnClearAllRecordings(openOk: bool, requestOk: bool) returns (response: QueryResponse<()>)
      requires Valid()
      modifies store
      ensures Valid()
      ensures response.Success? <==> (old(store.handleCached) || openOk) && requestOk
      ensures response.Success? ==> store.records == map[]
      ensures response.Failure? ==> store.records == old(store.records)
      ensures store.handleCached == (old(store.handleCached) || openOk)
      ensures store.opens == if old(store.handleCached) then old(store.opens) else old(store.opens) + 1
    {
      var r := store.ClearAllRecordings(openOk, requestOk);
      response := if r.Ok? then Success(()) else Failure(r.error);
    }

    /** `recording-stopped`: recording stops, but the session id is kept for the final save. */
    method OnRecordingStopped()
      requires Valid()
      modifies this`isRecording
      ensures Valid()
      ensures !isRecording
    {
      isRecording := false;
    }

    /**
     * `chrome.tabs.onActivated`, up to the timer: acts only while recording
     * on a (truthy) tab other than the activated one, by sending a stop to the
     * recording tab (its failure is only logged) and setting the timer for the
     * activated tab. No state changes.
     */
    method BeginHandoff(activatedTab: TabId) returns (handoff: Handoff)
      ensures handoff.Handoff? <==>
        isRecording && TruthyTab(currentRecordingTabId) && currentRecordingTabId.value != activatedTab
      ensures handoff.Handoff? ==>
        handoff.stopTab == currentRecordingTabId.value && handoff.startTab == activatedTab
    {
      if isRecording && TruthyTab(currentRecordingTabId) && currentRecordingTabId.value != activatedTab {
        handoff := Handoff(currentRecordingTabId.value, activatedTab);
      } else {
        handoff := NoHandoff;
      }
    }

    /**
     * The timer firing for `newTab`. `lookupOk` is whether `chrome.tabs.get`
     * resolved and `url` the tab's url; `sendOk` whether the start message
     * was delivered. A recordable url makes the tab current once the start
     * message is delivered; any other url stops recording and clears the
     * tab; a failed lookup or send changes nothing. `isRecording` is not
     * looked at again, and the session id is never touched.
     */
    method CompleteHandoff(newTab: TabId, lookupOk: bool, url: Option<string>, sendOk: bool) returns (started: bool)
      requires Valid()
      modifies this`isRecording, this`currentRecordingTabId
      ensures Valid()
      ensures started <==> lookupOk && IsRecordableUrl(url) && sendOk
      ensures started ==> currentRecordingTabId == Some(newTab) && isRecording == old(isRecording)
      ensures lookupOk && !IsRecordableUrl(url) ==> !isRecording && currentRecordingTabId == None
      ensures !lookupOk || (IsRecordableUrl(url) && !sendOk) ==>
        isRecording == old(isRecording) && currentRecordingTabId == old(currentRecordingTabId)
    {
      started := false;
      if !lookupOk {
        return;
      }
      if IsRecordableUrl(url) {
        if sendOk {
          currentRecordingTabId := Some(newTab);
          started := true;
        }
      } else {
        isRecording := false;
        currentRecordingTabId := None;
      }
    }
  }

  /**
   * A session that moves from tab 7 to tab 9 and is then saved as final:
   * the session id minted on tab 7 survives the hand-off, and the final save
   * leaves the coordinator idle.
   */
  method SessionSurvivesHandoff(store: RecordingDB.Store, events: seq<Event>)
    returns (first: string, afterHandoff: Option<string>, call: SaveCall, c: Coordinator)
    requires store.Valid()
    modifies store
    ensures afterHandoff == Some(first)
    ensures first == "session-lx2k9"
    ensures call.sessionId == first && call.tabId == Some(9)
    ensures !c.isRecording && c.currentSessionId == None && c.currentRecordingTabId == None
  {
    c := new Coordinator(store, true);
    first := c.OnRecordingStarted(Some(7), "lx2k9");
    assert first == "session-lx2k9";
    var h := c.BeginHandoff(9);
    assert h == Handoff(7, 9);
    var started := c.CompleteHandoff(9, true, Some("https://example.com/"), true);
    assert started && c.currentRecordingTabId == Some(9);
    afterHandoff := c.currentSessionId;
    var msg := SaveMessage(Some("1700000000000-abc"), Some("https://example.com/"), Some("Example"), Some(events), Some(true));
    var response;
    call, response := c.OnSaveRecording(msg, Some(9), "unused", 1700000000000, true, true);
    assert response.Saved?;
  }
}
