/**
 * The in-page recorder of src/rrweb-injected.js: whether an rrweb recorder
 * is running (`stopFn != null`), the buffer its `emit` callback fills, and
 * the `start-recording`/`stop-recording` window messages.
 *
 * rrweb's `record` is outside the model: whether it returns a stop function
 * (it returns undefined when it fails) is the parameter `recordOk`, its
 * emitted events arrive through `Emit`, and whether calling its stop
 * function throws is the parameter `stopThrows`. Messages the recorder posts
 * with `window.postMessage` are appended to `outbox`. The recording id
 * minted from `Date.now()` and `Math.random()` is a parameter.
 */
module RrwebInjected {
  import opened Common

  /** A message the recorder posts to the page. */
  datatype Posted =
    | RrwebStarted
    | RrwebStop(events: seq<Event>, recordingId: string, isFinalRecording: bool)

  /** A `message` event as the handler sees it. */
  datatype WindowMessage = WindowMessage(fromWindow: bool, kind: string, isFinalRecording: Option<bool>)

  /** The events a posted message carries to the content script. */
  function Payload(message: Posted): seq<Event> {
    if message.RrwebStop? then message.events else []
  }

  /** The events carried by the stop messages in `outbox`, in posting order. */
  function Flushed(outbox: seq<Posted>): seq<Event> {
    if outbox == [] then [] else Payload(outbox[0]) + Flushed(outbox[1..])
  }

  /** Posting one more message adds its events, if any, at the end. */
  lemma {:induction false} FlushedAppend(outbox: seq<Posted>, message: Posted)
    ensures Flushed(outbox + [message]) == Flushed(outbox) + Payload(message)
  {
    var longer := outbox + [message];
    if outbox == [] {
      assert longer == [message];
      assert Flushed(longer) == Payload(message) + Flushed([]);
    } else {
      assert longer[0] == outbox[0] && longer[1..] == outbox[1..] + [message];
      FlushedAppend(outbox[1..], message);
      calc {
        Flushed(longer);
        Payload(outbox[0]) + Flushed(outbox[1..] + [message]);
        Payload(outbox[0]) + (Flushed(outbox[1..]) + Payload(message));
        (Payload(outbox[0]) + Flushed(outbox[1..])) + Payload(message);
      }
    }
  }

  class Recorder {
    /** `stopFn != null`. */
    var running: bool
    /** The module-level `events` buffer. */
    var buffer: seq<Event>
    /** What the recorder has posted with `window.postMessage`, oldest first. */
    var outbox: seq<Posted>
    /** Every event rrweb has emitted. */
    ghost var emitted: seq<Event>
    /** How many rrweb recorders were created. */
    ghost var recordersCreated: nat

    /** No emitted event is lost or duplicated: each was flushed once, in order, or is still buffered. */
    ghost predicate Valid()
      reads this
    {
      emitted == Flushed(outbox) + buffer
    }

    /** The injected script loading: no recorder, an empty buffer. */
    constructor ()
      ensures Valid()
      ensures !running && buffer == [] && outbox == [] && recordersCreated == 0
    {
      running := false;
      buffer := [];
      outbox := [];
      emitted := [];
      recordersCreated := 0;
    }

    /**
     * `startRecord`: calls rrweb's `record` only when no recorder is running;
     * a recorder then runs exactly when `record` returned a stop function.
     */
    method StartRecord(recordOk: bool)
      requires Valid()
      modifies this`running, this`recordersCreated
      ensures Valid()
      ensures running == (old(running) || recordOk)
      ensures recordersCreated == if old(running) then old(recordersCreated) else old(recordersCreated) + 1
    {
      if running {
        return;
      }
      running := recordOk;
      recordersCreated := recordersCreated + 1;
    }

    /** The `emit` callback: appends the event to the buffer. */
    method Emit(event: Event)
      requires Valid()
      modifies this`buffer, this`emitted
      ensures Valid()
      ensures buffer == old(buffer) + [event]
      ensures emitted == old(emitted) + [event]
    {
      buffer := buffer + [event];
      emitted := emitted + [event];
    }

    /**
     * `start-recording`: starts a recorder if none runs and always posts
     * `rrweb-started`, even when `record` failed.
     */
    method HandleStartRecording(recordOk: bool)
      requires Valid()
      modifies this`running, this`recordersCreated, this`outbox
      ensures Valid()
      ensures running == (old(running) || recordOk) && buffer == old(buffer)
      ensures outbox == old(outbox) + [RrwebStarted]
      ensures recordersCreated == if old(running) then old(recordersCreated) else old(recordersCreated) + 1
    {
      StartRecord(recordOk);
      FlushedAppend(outbox, RrwebStarted);
      outbox := outbox + [RrwebStarted];
    }

    /**
     * `stop-recording`: with a running recorder whose stop does not throw
     * and a non-empty buffer, posts a copy of the buffer under
     * `recordingId` (`isFinalRecording` defaults to false) and empties the
     * buffer; otherwise posts nothing and keeps the buffer. The recorder is
     * never running afterwards.
     */
    method HandleStopRecording(isFinalRecording: Option<bool>, recordingId: string, stopThrows: bool)
      requires Valid()
      modifies this`running, this`buffer, this`outbox
      ensures Valid()
      ensures !running
      ensures old(running) && !stopThrows && old(buffer) != [] ==>
        && outbox == old(outbox) + [RrwebStop(old(buffer), recordingId, isFinalRecording == Some(true))]
        && buffer == []
      ensures !(old(running) && !stopThrows && old(buffer) != []) ==>
        outbox == old(outbox) && buffer == old(buffer)
    {
      if running {
        if !stopThrows {
          if |buffer| > 0 {
            var message := RrwebStop(buffer, recordingId, isFinalRecording == Some(true));
            FlushedAppend(outbox, message);
            outbox := outbox + [message];
            buffer := [];
          }
        }
      }
      running := false;
    }

    /**
     * The window `message` listener: ignores messages from other sources and
     * of any type but `start-recording` and `stop-recording`.
     */
    method HandleMessage(message: WindowMessage, recordOk: bool, recordingId: string, stopThrows: bool)
      requires Valid()
      modifies this`running, this`buffer, this`outbox, this`recordersCreated
      ensures Valid()
      ensures !message.fromWindow || (message.kind != "start-recording" && message.kind != "stop-recording") ==>
        && running == old(running)
        && buffer == old(buffer)
        && outbox == old(outbox)
        && recordersCreated == old(recordersCreated)
      ensures message.fromWindow && message.kind == "start-recording" ==>
        && running == (old(running) || recordOk)
        && buffer == old(buffer)
        && outbox == old(outbox) + [RrwebStarted]
        && recordersCreated == if old(running) then old(recordersCreated) else old(recordersCreated) + 1
      ensures message.fromWindow && message.kind == "stop-recording" ==>
        && !running
        && recordersCreated == old(recordersCreated)
        && (old(running) && !stopThrows && old(buffer) != [] ==>
              && outbox == old(outbox) + [RrwebStop(old(buffer), recordingId, message.isFinalRecording == Some(true))]
              && buffer == [])
        && (!(old(running) && !stopThrows && old(buffer) != []) ==>
              outbox == old(outbox) && buffer == old(buffer))
    {
      if !message.fromWindow {
        return;
      }
      if message.kind == "start-recording" {
        HandleStartRecording(recordOk);
      } else if message.kind == "stop-recording" {
        HandleStopRecording(message.isFinalRecording, recordingId, stopThrows);
      }
    }
  }
}
