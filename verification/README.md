# Browser session recorder: recorder, coordinator, store and upload, in Dafny

This project models the core of a Chrome extension that records a user's
browsing as a stream of rrweb events, keeps recordings in IndexedDB and
uploads a session's events to a remote endpoint. Four pieces are modelled,
each as it is written:

- **In-page recorder** (`src/rrweb-injected.js`, module `RrwebInjected`):
  the class `Recorder` holds the running flag (`stopFn != null`), the event
  buffer the rrweb `emit` callback fills, and what it posts to the page. Its
  invariant `Valid()` says that no emitted event is lost or duplicated. Every
  emitted event either went out, once and in order, in a posted
  `rrweb-stop` message, or is still in the buffer.
- **Background coordinator** (`background.js`, module `Background`): the
  class `Coordinator` holds the module-level `events`, `isRecording`,
  `currentRecordingTabId` and `currentSessionId`. It has one method per
  message type and a tab-activation hand-off split in two at its 500 ms
  timer (`BeginHandoff`, `CompleteHandoff`). Its invariant says that while
  recording there is always a session id.
- **Recording store** (`src/recordingDB.js`, module `RecordingDB`): the
  class `Store` holds the `recordings` object store as a map from id to
  record, plus the cached database handle of `initDB`.
- **Upload pipeline** (`src/recordingUpload.js`, module `RecordingUpload`):
  the greedy chunker `ChunkData` and the sequential, numbered, fail-fast
  `UploadRecordingData`. The predicate `Greedy` characterises the chunker's
  result: the chunks concatenate to the input, none is empty, every
  candidate of two or more events fitted the 2 MiB threshold, and each
  chunk but the last was closed because the next event would overflow it.
  `GreedyUnique` shows this characterisation admits exactly one chunking.

Module `Common` holds `Option`, the opaque `Event` and sequence
concatenation.

Behaviour of the code worth knowing:

- The store's record has six fields and no session id.
  `saveRecordingWithId` declares five parameters, so the sixth argument the
  `save-recording` branch passes (the session id) is dropped. The response's
  `sessionId` reads `rec.sessionId`, so it is always undefined. The model
  follows the code: `OnSaveRecording` returns the arguments it passed
  (`SaveCall`, with the session id it computed), and the record it stores
  has no session id.
- There is no set of active recording tabs. Tab creation, update and removal
  only log. `recording-saved` changes nothing. Nothing uploads on a final
  save.
- The hand-off does not check again whether recording is still on when its
  timer fires.
- Several branches are never triggered by the rest of the extension. The popup and the content script post `stop-recording` without `isFinalRecording` (popup/popup.js:98, scripts/content.js:54). Nothing sends `recording-stopped`, `recording-saved` or `get-tab-id`. `src/rrweb-injected.js` never posts `rrweb-record`, so the content script never relays an `rrweb-event`. So in the extension as shipped, the final-save branch of `OnSaveRecording` never runs, and a minted `currentSessionId` is never cleared. The model states these branches as the background code handles them.
- JavaScript truthiness is spelled out. A tab id of 0 counts as "no tab" in
  the hand-off guard. An empty string counts as a missing session id,
  recording id, url, title or token.

Outside the model, and passed in as parameters instead:

- the serialised byte size of a chunk (`JSON.stringify` measured by `Blob`);
- the MD5 digest (RFC 1321) of a chunk's serialised bytes;
- the endpoint's answer to each segment request;
- ids minted from `Date.now()` and `Math.random()`, and `Date.now()` itself;
- whether IndexedDB opened and whether each request succeeded;
- the results of `chrome.tabs.get` and `chrome.tabs.sendMessage`;
- whether rrweb's `record` returns a stop function, and whether that stop function throws.

## Model

| member | source | states |
|---|---|---|
| `RecordingUpload.ChunkData` | src/recordingUpload.js:19-41 | the chunks satisfy `Greedy` for the input, so they concatenate back to it exactly; there are no chunks exactly when the input is empty; every chunk of more than one event has size at most `CHUNK_SIZE` (2 MiB); the loop keeps the candidate at one event or within the threshold |
| `RecordingUpload.PackStep` | src/recordingUpload.js:23-34 | one iteration (push, measure, pop and close when over the threshold with more than one event) keeps the loop invariant `Packing` |
| `RecordingUpload.PackFinish` | src/recordingUpload.js:36-40 | closing the last non-empty candidate turns the loop invariant over the whole input into `Greedy`; with no candidate left there are no chunks only for empty input |
| `RecordingUpload.CandidateFits` | src/recordingUpload.js:29-33 | a candidate all of whose multi-event prefixes passed the check holds at most one event or fits the threshold |
| `RecordingUpload.SizeBound` | src/recordingUpload.js:29-33 | in a greedy chunking only a single-event chunk can exceed `CHUNK_SIZE` |
| `RecordingUpload.FirstChunkNotShorter` | src/recordingUpload.js:29-32 | greedy maximality: two greedy chunkings of the same input cannot have first chunks where one is a strict prefix of the other |
| `RecordingUpload.GreedyUnique` | src/recordingUpload.js:19-41 | the greedy characterisation determines the chunking: any two chunkings satisfying it for the same input are equal |
| `RecordingUpload.UploadChunk` | src/recordingUpload.js:43-67 | one chunk's request goes to the API endpoint as a `rrweb` segment with the given session id and sequence number; its checksum is the digest of exactly the body it carries, the chunk itself; its `Authorization` header is `Bearer ` followed by the token |
| `RecordingUpload.SendChunks` | src/recordingUpload.js:84-91 | chunk i goes out as segment i+1, with the session id, `segment_type` "rrweb", the chunk's checksum and the bearer token; chunks are sent in order and each is awaited; every chunk before the last one sent was accepted; the first rejected chunk (a non-ok status throws, lines 62-64, and the loop rethrows) ends the loop with its 0-based index; success means every chunk was sent, and their bodies are the chunks in order |
| `RecordingUpload.UploadRecordingData` | src/recordingUpload.js:69-92 | a missing token is rejected first, then a missing session id, with nothing sent; empty events return with nothing sent; otherwise the sent requests are the greedy chunks numbered 1..k in order, stopping at the first failure; after a full upload every chunk was sent, one request each, and the request bodies concatenate to the input events |
| `RecordingDB.AllValues` | src/recordingDB.js:59-60 | `getAll` yields every stored record once: as many records as keys, exactly the stored values, no id twice |
| `RecordingDB.Store.constructor` | src/recordingDB.js:5 | the background process starts with no cached handle over the records persisted earlier, keyed by id |
| `RecordingDB.Store.InitDB` | src/recordingDB.js:7-27 | with a cached handle it succeeds without reopening; otherwise it opens once and caches the handle exactly when opening succeeds |
| `RecordingDB.Store.SaveRecordingWithId` | src/recordingDB.js:29-52 | on success the store maps the id to the six-field record (default url "", title "", tab id null; no session id), overwriting any earlier record under that id, and resolves with that record; an open or request failure rejects and leaves the store unchanged; the store stays keyed by id |
| `RecordingDB.Store.GetAllRecordings` | src/recordingDB.js:54-63 | on success resolves with exactly the stored records, each once (no id appears twice); rejects on an open or request failure |
| `RecordingDB.Store.DeleteRecordingById` | src/recordingDB.js:65-74 | on success removes the record under the id and no other, an absent id included; an undefined id or a failure rejects and leaves the store unchanged |
| `RecordingDB.Store.ClearAllRecordings` | src/recordingDB.js:76-85 | on success the store is empty; a failure leaves it unchanged |
| `Background.StartsWithIsPrefix` | background.js:191-192 | `startsWith` holds exactly when the argument is a prefix of the string |
| `Background.RecordableUrlPrefixes` | background.js:189-193 | a tab url is recordable exactly when it is non-empty and starts with neither `chrome://` nor `chrome-extension://` |
| `Background.Coordinator.constructor` | background.js:11-19 | the background page starts not recording, with no tab, no session, no events, and runs `initDB` once, ignoring its failure: the handle is cached afterwards exactly when it was or opening succeeded, and the database is opened once more only when no handle was cached |
| `Background.Coordinator.OnRrwebEvent` | background.js:22-26 | `rrweb-event` appends the event to `events` and changes nothing else |
| `Background.Coordinator.OnGetTabId` | background.js:29-36 | `get-tab-id` answers the sender's tab id, or null without a sender tab, and changes nothing |
| `Background.Coordinator.OnRecordingStarted` | background.js:39-52 | recording is on and the sender's tab (or null) becomes current; a session id is minted only when there is none (an existing one is kept); the answer is the current session id |
| `Background.Coordinator.OnRecordingSaved` | background.js:55-60 | `recording-saved` changes nothing, as its empty frame states; its result is only the condition under which the code logs |
| `Background.Coordinator.OnSaveRecording` | background.js:63-96 | saves under `msg.recordingId` or a fresh id, with url, title and events defaulting to "", "" and [] and the sender's tab; the session id passed along is the current one or else the recording id, and the store drops it; the answer carries the id and an undefined session id; a successful final save clears the session and tab and stops recording; a non-final or failed save changes no coordinator state; a failed save answers failure and leaves the records unchanged; the handle caching is as for `OnGetAllRecordings` |
| `Background.Coordinator.OnGetAllRecordings` | background.js:99-104 | answers exactly the stored records, each once with no id twice, or failure; the store's handle is cached afterwards exactly when it was cached or opening succeeded, and the database was opened once more only when no handle was cached |
| `Background.Coordinator.OnDeleteRecording` | background.js:107-113 | deletes exactly the named record and answers success; a missing id or failure answers failure and changes no record; the handle caching is as for `OnGetAllRecordings` |
| `Background.Coordinator.OnClearAllRecordings` | background.js:116-121 | empties the store and answers success, or answers failure and changes no record; the handle caching is as for `OnGetAllRecordings` |
| `Background.Coordinator.OnRecordingStopped` | background.js:141-146 | recording stops, the session id and tab are kept |
| `Background.Coordinator.BeginHandoff` | background.js:164-183 | acts exactly when recording on a truthy tab that differs from the activated one: the stop goes to the recording tab and the timer is set for the activated tab; no state changes |
| `Background.Coordinator.CompleteHandoff` | background.js:184-207 | a recordable url and a delivered start message make the new tab current; a non-recordable url stops recording and clears the tab; a failed lookup or send changes nothing; `isRecording` is not re-checked and the session id is untouched |
| `Background.SessionSurvivesHandoff` | background.js:164-207 | a session started on tab 7 keeps its id `session-lx2k9` after a hand-off to tab 9, the final save call from tab 9 carries that id, and the successful final save leaves the coordinator not recording, with no session and no tab |
| `RrwebInjected.FlushedAppend` | src/rrweb-injected.js:75-84 | posting a message adds the events it carries, and only those, after everything flushed before |
| `RrwebInjected.Recorder.constructor` | src/rrweb-injected.js:3-5 | the script loads with no recorder, an empty buffer and nothing posted |
| `RrwebInjected.Recorder.StartRecord` | src/rrweb-injected.js:7-37 | `record` is called only when no recorder is running, and a recorder runs afterwards exactly when one already ran or `record` returned a stop function (it returns undefined on failure, leaving `stopFn` falsy) |
| `RrwebInjected.Recorder.Emit` | src/rrweb-injected.js:30-33 | each emitted event is appended to the buffer in emission order, and nothing is lost |
| `RrwebInjected.Recorder.HandleStartRecording` | src/rrweb-injected.js:46-55 | starts a recorder if none runs, as `StartRecord` does, and always posts `rrweb-started`, even when already recording or when `record` failed |
| `RrwebInjected.Recorder.HandleStopRecording` | src/rrweb-injected.js:56-99 | with a running recorder whose stop does not throw and a non-empty buffer, posts a copy of the buffer with the fresh recording id and `isFinalRecording` defaulting to false, then empties the buffer; otherwise posts nothing and keeps the buffer; the recorder is never running afterwards; no event is lost or duplicated |
| `RrwebInjected.Recorder.HandleMessage` | src/rrweb-injected.js:41-104 | messages not from the window, or of another type, change nothing; `start-recording` runs a recorder exactly when one ran or `record` succeeded, creates one only when none ran, and posts `rrweb-started`; `stop-recording` with a running recorder, a stop that does not throw and a non-empty buffer posts a copy of the buffer (with `isFinalRecording` defaulting to false) and empties the buffer, and otherwise posts nothing and keeps the buffer; the recorder is not running afterwards and no recorder is created |

## Left out

- Asynchrony and reentrancy: promises, `await` and callbacks are modelled as synchronous steps. In the code, other messages can be handled between a `save-recording`'s store request and its continuation. The model does not interleave them. The one explicit gap is the hand-off timer, between `BeginHandoff` and `CompleteHandoff`.
- The `get-all-sessions` and `get-session-recordings` branches (background.js:124-138): they call `getAllSessions` and `getRecordingsBySession`, which `src/recordingDB.js` does not define. They are not part of this model.
- `setToken` (src/recordingUpload.js:94-104): a write to `chrome.storage`, outside the upload logic.
- The byte-level request: `TextEncoder`, `URL` query encoding, the `Content-Type` header and the JSON serialisation of a chunk. A request's body is the chunk's event list; its checksum is the digest parameter applied to that list.
- The IndexedDB schema upgrade (object store creation and its `timestamp` and `url` indexes, src/recordingDB.js:16-25). The store is a map keyed by id, and the indexes are never queried.
- rrweb's own behaviour and its configuration (`checkoutEveryNms`, sampling, block and ignore classes). `startRecord` ignores the `config` it is given.
- A window message whose `data` is `null` or `undefined` (reading `data.type` throws a `TypeError`); primitive `data` reads `type` as undefined and is ignored like any unknown type. Also type names that hit `Object.prototype` members. For `toString` or `constructor` the lookup finds a built-in function that is called to no effect; for `__proto__` it finds `Object.prototype` itself, which is not callable, so line 101 throws a `TypeError`. None of these change recorder state, and the model treats them all as ignored types.
- `RecordingDB.AllValues` returns the stored records in no particular order. IndexedDB's `getAll` returns them in ascending key order; the model does not promise that order.
- Logging (`console.*`) and the `chrome.tabs.get` call at background.js:159-161, which only logs.
- `RrwebInjected.Recorder.HandleMessage` models `isFinalRecording` as an optional boolean. A truthy non-boolean value would be posted as is by the code, but the model posts `false` for it.
- `Background.Coordinator.OnSaveRecording` models `msg.isFinalRecording` as an optional boolean in the same way. A truthy non-boolean value ends the session in the code, but not in the model.
- The content script's drop of empty stop payloads (scripts/content.js:82-85) is not a precondition of `OnSaveRecording`. The background handles missing events itself.
