/**
 * The upload pipeline of src/recordingUpload.js: greedy chunking of an event
 * list into size-bounded segments, and their strictly sequential, numbered,
 * fail-fast delivery.
 *
 * The serialised byte size of a chunk (`JSON.stringify` measured by `Blob`),
 * the MD5 digest of its serialised bytes and the endpoint's answer are
 * outside the model; each is a function the operations take as a parameter.
 */
module RecordingUpload {
  import opened Common

  /** Threshold above which a candidate chunk of several events is split. */
  const CHUNK_SIZE: nat := 2 * 1024 * 1024
  const API_ENDPOINT: string := "https://ohg3ei3yr2.execute-api.us-east-1.amazonaws.com/api/v1/records/segments"
  const SEGMENT_TYPE: string := "rrweb"

  /** Every prefix of `chunk` holding two or more events fits the threshold. */
  ghost predicate PrefixesFit(size: seq<Event> -> nat, chunk: seq<Event>) {
    forall k :: 2 <= k <= |chunk| ==> size(chunk[..k]) <= CHUNK_SIZE
  }

  /** Adding `next` to `chunk` takes it over the threshold. */
  ghost predicate Overflows(size: seq<Event> -> nat, chunk: seq<Event>, next: Event) {
    size(chunk + [next]) > CHUNK_SIZE
  }

  /**
   * The chunks are what greedy packing closes: none is empty, every candidate
   * that was ever grown to two or more events fitted, and each chunk but the
   * last was closed because adding the first event of the next one made it
   * too big.
   */
  ghost predicate WellPacked(size: seq<Event> -> nat, chunks: seq<seq<Event>>) {
    && (forall i :: 0 <= i < |chunks| ==> chunks[i] != [] && PrefixesFit(size, chunks[i]))
    && (forall i :: 0 <= i < |chunks| - 1 ==> chunks[i + 1] != [] ==> Overflows(size, chunks[i], chunks[i + 1][0]))
  }

  /** `chunks` is what greedy packing of `events` yields; they concatenate to the input. */
  ghost predicate Greedy(size: seq<Event> -> nat, events: seq<Event>, chunks: seq<seq<Event>>) {
    Concat(chunks) == events && WellPacked(size, chunks)
  }

  /** Pushing an event the threshold check lets stay keeps every prefix fitting. */
  lemma Grow(size: seq<Event> -> nat, chunk: seq<Event>, next: Event)
    requires PrefixesFit(size, chunk)
    requires !(size(chunk + [next]) > CHUNK_SIZE && |chunk + [next]| > 1)
    ensures PrefixesFit(size, chunk + [next])
  {
    var grown := chunk + [next];
    forall k | 2 <= k <= |grown|
      ensures size(grown[..k]) <= CHUNK_SIZE
    {
      if k < |grown| {
        assert grown[..k] == chunk[..k];
      } else {
        assert grown[..k] == grown;
      }
    }
  }

  /** Closing a candidate that overflowed (or that ends the input) keeps the chunks well packed. */
  lemma Seal(size: seq<Event> -> nat, chunks: seq<seq<Event>>, chunk: seq<Event>)
    requires WellPacked(size, chunks)
    requires chunk != [] && PrefixesFit(size, chunk)
    requires chunks != [] ==> Overflows(size, chunks[|chunks| - 1], chunk[0])
    ensures WellPacked(size, chunks + [chunk])
  {
    var all := chunks + [chunk];
    forall i | 0 <= i < |all| - 1
      ensures all[i + 1] != [] ==> Overflows(size, all[i], all[i + 1][0])
    {
      if i < |chunks| - 1 {
        assert all[i] == chunks[i] && all[i + 1] == chunks[i + 1];
      }
    }
  }

  /**
   * The state of `chunkData` after it has consumed `done`: the closed chunks
   * and the candidate hold exactly `done`, the closed chunks are well packed,
   * the last of them was closed by the candidate's first event, and every
   * prefix of the candidate passed the threshold check.
   */
  ghost predicate Packing(size: seq<Event> -> nat, done: seq<Event>, chunks: seq<seq<Event>>, current: seq<Event>) {
    && Concat(chunks) + current == done
    && (current == [] <==> done == [])
    && (done == [] ==> chunks == [])
    && WellPacked(size, chunks)
    && (chunks != [] && current != [] ==> Overflows(size, chunks[|chunks| - 1], current[0]))
    && PrefixesFit(size, current)
  }

  /** One iteration of the loop of `chunkData` keeps `Packing`. */
  lemma PackStep(size: seq<Event> -> nat, done: seq<Event>, chunks: seq<seq<Event>>, current: seq<Event>, event: Event)
    requires Packing(size, done, chunks, current)
    ensures size(current + [event]) > CHUNK_SIZE && |current + [event]| > 1 ==>
      Packing(size, done + [event], chunks + [current], [event])
    ensures !(size(current + [event]) > CHUNK_SIZE && |current + [event]| > 1) ==>
      Packing(size, done + [event], chunks, current + [event])
  {
    if size(current + [event]) > CHUNK_SIZE && |current + [event]| > 1 {
      ConcatAppend(chunks, current);
      Seal(size, chunks, current);
      assert (chunks + [current])[|chunks + [current]| - 1] == current;
    } else {
      Grow(size, current, event);
    }
  }

  /** Closing the last candidate, if any, turns `Packing` of the whole input into `Greedy`. */
  lemma PackFinish(size: seq<Event> -> nat, events: seq<Event>, chunks: seq<seq<Event>>, current: seq<Event>)
    requires Packing(size, events, chunks, current)
    ensures current == [] ==> Greedy(size, events, chunks) && (chunks == [] <==> events == [])
    ensures current != [] ==> Greedy(size, events, chunks + [current]) && events != []
  {
    if current != [] {
      ConcatAppend(chunks, current);
      Seal(size, chunks, current);
    }
  }

  /** A candidate whose prefixes fit holds at most one event or fits the threshold. */
  lemma CandidateFits(size: seq<Event> -> nat, current: seq<Event>)
    requires PrefixesFit(size, current)
    ensures |current| <= 1 || size(current) <= CHUNK_SIZE
  {
    assert current[..|current|] == current;
  }

  /**
   * Greedy packing, as `chunkData` runs it: push the next event onto the
   * candidate; if the candidate is then over the threshold and holds more
   * than one event, pop that event, close the candidate and start a new one
   * with it; close the last candidate if it is not empty.
   */
  method ChunkData(size: seq<Event> -> nat, events: seq<Event>) returns (chunks: seq<seq<Event>>)
    ensures Greedy(size, events, chunks)
    ensures chunks == [] <==> events == []
    ensures forall i :: 0 <= i < |chunks| ==> |chunks[i]| > 1 ==> size(chunks[i]) <= CHUNK_SIZE
  {
    chunks := [];
    var current: seq<Event> := [];
    for i := 0 to |events|
      invariant Packing(size, events[..i], chunks, current)
      // the candidate holds at most one event or fits the threshold
      invariant |current| <= 1 || size(current) <= CHUNK_SIZE
    {
      var event := events[i];
      PackStep(size, events[..i], chunks, current, event);
      assert events[..i + 1] == events[..i] + [event];
      current := current + [event];
      if size(current) > CHUNK_SIZE && |current| > 1 {
        // pop the event just pushed, close the rest, start over with it
        var closed, last := current[..|current| - 1], current[|current| - 1];
        assert closed + [last] == current;
        chunks := chunks + [closed];
        current := [last];
      }
      CandidateFits(size, current);
    }
    assert events[..|events|] == events;
    PackFinish(size, events, chunks, current);
    if |current| > 0 {
      chunks := chunks + [current];
    }
    SizeBound(size, chunks);
  }

  /** A well-packed chunk of more than one event fits the threshold. */
  lemma SizeBound(size: seq<Event> -> nat, chunks: seq<seq<Event>>)
    requires WellPacked(size, chunks)
    ensures forall i :: 0 <= i < |chunks| ==> |chunks[i]| > 1 ==> size(chunks[i]) <= CHUNK_SIZE
  {
    forall i | 0 <= i < |chunks| && |chunks[i]| > 1
      ensures size(chunks[i]) <= CHUNK_SIZE
    {
      assert chunks[i][..|chunks[i]|] == chunks[i];
    }
  }

  /** The tail of a greedy chunking is a greedy chunking of what it covers. */
  lemma GreedyTail(size: seq<Event> -> nat, events: seq<Event>, chunks: seq<seq<Event>>)
    requires chunks != [] && Greedy(size, events, chunks)
    ensures events == chunks[0] + Concat(chunks[1..])
    ensures Greedy(size, Concat(chunks[1..]), chunks[1..])
  {
    var tail := chunks[1..];
    forall i | 0 <= i < |tail| - 1
      ensures tail[i + 1] != [] ==> size(tail[i] + [tail[i + 1][0]]) > CHUNK_SIZE
    {
      assert tail[i] == chunks[i + 1] && tail[i + 1] == chunks[i + 2];
    }
  }

  /** A first chunk that stops short of the input was closed by the next event overflowing it. */
  lemma FirstChunkClosed(size: seq<Event> -> nat, events: seq<Event>, a: seq<seq<Event>>)
    requires a != [] && Greedy(size, events, a)
    ensures 1 <= |a[0]| <= |events| && events[..|a[0]|] == a[0]
    ensures |a[0]| < |events| ==> size(events[..|a[0]| + 1]) > CHUNK_SIZE
  {
    GreedyTail(size, events, a);
    if |a[0]| < |events| {
      ConcatEmpty(a[1..]);
      assert |a| >= 2;
      assert Concat(a[1..]) == a[1] + Concat(a[2..]) by {
        assert a[1..][0] == a[1] && a[1..][1..] == a[2..];
      }
      assert events[..|a[0]| + 1] == a[0] + [a[1][0]];
    }
  }

  /** Every prefix of the input of two or more events up to the first chunk fits. */
  lemma FirstChunkFits(size: seq<Event> -> nat, events: seq<Event>, b: seq<seq<Event>>)
    requires b != [] && Greedy(size, events, b)
    ensures forall k :: 2 <= k <= |b[0]| ==> size(events[..k]) <= CHUNK_SIZE
  {
    GreedyTail(size, events, b);
    forall k | 2 <= k <= |b[0]|
      ensures size(events[..k]) <= CHUNK_SIZE
    {
      assert events[..k] == b[0][..k];
    }
  }

  /** Two greedy chunkings of the same events start with a chunk of the same length. */
  lemma FirstChunkNotShorter(size: seq<Event> -> nat, events: seq<Event>, a: seq<seq<Event>>, b: seq<seq<Event>>)
    requires a != [] && b != []
    requires Greedy(size, events, a) && Greedy(size, events, b)
    ensures |a[0]| >= |b[0]|
  {
    FirstChunkClosed(size, events, a);
    FirstChunkClosed(size, events, b);
    FirstChunkFits(size, events, b);
  }

  /** Greedy packing is deterministic: its characterisation admits one chunking. */
  lemma {:induction false} GreedyUnique(size: seq<Event> -> nat, events: seq<Event>, a: seq<seq<Event>>, b: seq<seq<Event>>)
    requires Greedy(size, events, a) && Greedy(size, events, b)
    ensures a == b
    decreases |a|
  {
    ConcatEmpty(a);
    ConcatEmpty(b);
    if a != [] && b != [] {
      FirstChunkNotShorter(size, events, a, b);
      FirstChunkNotShorter(size, events, b, a);
      GreedyTail(size, events, a);
      GreedyTail(size, events, b);
      assert a[0] == events[..|a[0]|] == b[0];
      var rest := events[|a[0]|..];
      assert Concat(a[1..]) == rest == Concat(b[1..]);
      GreedyUnique(size, rest, a[1..], b[1..]);
      assert a == [a[0]] + a[1..] && b == [b[0]] + b[1..];
    }
  }

  /** The query parameters, header and body of one segment upload. */
  datatype UploadRequest = UploadRequest(
    endpoint: string,
    sessionId: string,
    sequenceNumber: nat,
    checksum: string,
    segmentType: string,
    authorization: string,
    body: seq<Event>)

  /**
   * The request `uploadChunk` issues for one chunk: a `rrweb` segment posted
   * to the API endpoint, whose checksum is the digest of exactly the body it
   * carries and whose `Authorization` header is the token after `Bearer `.
   */
  function UploadChunk(chunk: seq<Event>, sessionId: string, sequenceNumber: nat, token: string,
                       digest: seq<Event> -> string): (r: UploadRequest)
    ensures r.body == chunk && r.checksum == digest(r.body)
    ensures r.endpoint == API_ENDPOINT && r.segmentType == SEGMENT_TYPE
    ensures r.sessionId == sessionId && r.sequenceNumber == sequenceNumber
    ensures "Bearer " <= r.authorization && r.authorization[|"Bearer "|..] == token
  {
    UploadRequest(API_ENDPOINT, sessionId, sequenceNumber, digest(chunk), SEGMENT_TYPE, "Bearer " + token, chunk)
  }

  /**
   * How `uploadRecordingData` ends: by throwing for a missing token or
   * session id or for the first failed chunk (with its 0-based index), by
   * returning early when there is nothing to send, or by returning after
   * every chunk was accepted.
   */
  datatype UploadOutcome = TokenRequired | SessionIdRequired | NoEvents | Uploaded | ChunkFailed(index: nat)

  /** The bodies of the requests, in order. */
  function Bodies(sent: seq<UploadRequest>): seq<seq<Event>> {
    seq(|sent|, i requires 0 <= i < |sent| => sent[i].body)
  }

  /**
   * The loop of `uploadRecordingData`: sends `chunks[i]` as segment `i + 1`
   * and awaits it before the next one; the first chunk the endpoint does not
   * accept ends the loop (a non-ok status and a thrown transport error are
   * both `respond(...) == false`). `sent` lists the requests in the order
   * they were issued.
   */
  method SendChunks(chunks: seq<seq<Event>>, sessionId: string, token: string,
                    digest: seq<Event> -> string, respond: UploadRequest -> bool)
    returns (outcome: UploadOutcome, sent: seq<UploadRequest>)
    requires chunks != []
    ensures 1 <= |sent| <= |chunks|
    ensures forall i :: 0 <= i < |sent| ==> sent[i] == UploadChunk(chunks[i], sessionId, i + 1, token, digest)
    ensures forall i :: 0 <= i < |sent| - 1 ==> respond(sent[i])
    ensures outcome == if respond(sent[|sent| - 1]) then Uploaded else ChunkFailed(|sent| - 1)
    ensures outcome == Uploaded ==> Bodies(sent) == chunks
  {
    sent := [];
    var i := 0;
    while i < |chunks|
      invariant 0 <= i <= |chunks|
      invariant |sent| == i
      invariant forall j :: 0 <= j < i ==> sent[j] == UploadChunk(chunks[j], sessionId, j + 1, token, digest)
      invariant forall j :: 0 <= j < i ==> respond(sent[j])
    {
      var request := UploadChunk(chunks[i], sessionId, i + 1, token, digest);
      sent := sent + [request];
      if !respond(request) {
        return ChunkFailed(i), sent;
      }
      i := i + 1;
    }
    assert Bodies(sent) == chunks;
    return Uploaded, sent;
  }

  /**
   * `uploadRecordingData`: rejects a missing token, then a missing session
   * id, before anything is sent; returns without sending when there are no
   * events; otherwise chunks the events and sends the chunks in order. A
   * missing token or session id is the empty string, missing events the
   * empty list. `chunks` is the chunking the requests were cut from.
   */
  method UploadRecordingData(events: seq<Event>, sessionId: string, token: string,
                             size: seq<Event> -> nat, digest: seq<Event> -> string,
                             respond: UploadRequest -> bool)
    returns (outcome: UploadOutcome, sent: seq<UploadRequest>, ghost chunks: seq<seq<Event>>)
    ensures token == "" ==> outcome == TokenRequired && sent == []
    ensures token != "" && sessionId == "" ==> outcome == SessionIdRequired && sent == []
    ensures token != "" && sessionId != "" && events == [] ==> outcome == NoEvents && sent == []
    ensures token != "" && sessionId != "" && events != [] ==>
      && Greedy(size, events, chunks)
      && 1 <= |sent| <= |chunks|
      && (forall i :: 0 <= i < |sent| ==> sent[i] == UploadChunk(chunks[i], sessionId, i + 1, token, digest))
      && (forall i :: 0 <= i < |sent| - 1 ==> respond(sent[i]))
      && outcome == (if respond(sent[|sent| - 1]) then Uploaded else ChunkFailed(|sent| - 1))
    ensures forall i :: 0 <= i < |sent| ==>
      sent[i].sequenceNumber == i + 1 && sent[i].sessionId == sessionId && sent[i].segmentType == SEGMENT_TYPE
    ensures outcome == Uploaded ==> |sent| == |chunks| && Concat(Bodies(sent)) == events
  {
    sent := [];
    chunks := [];
    if token == "" {
      return TokenRequired, sent, chunks;
    }
    if sessionId == "" {
      return SessionIdRequired, sent, chunks;
    }
    if events == [] {
      return NoEvents, sent, chunks;
    }
    var cs := ChunkData(size, events);
    chunks := cs;
    outcome, sent := SendChunks(cs, sessionId, token, digest, respond);
  }
}
