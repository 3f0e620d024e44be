/**
 * Values shared by the recorder, the background coordinator, the recording
 * store and the upload pipeline.
 */
module Common {

  /** JavaScript's `null`/`undefined` next to a present value. */
  datatype Option<+T> = None | Some(value: T) {
    function GetOr(default: T): T {
      match this
      case Some(v) => v
      case None => default
    }
  }

  /**
   * One capture-engine event. The engine's payload is opaque to every part of
   * the extension; only its position in a sequence matters.
   */
  datatype Event = Event(timestamp: int, payload: string)

  /** The concatenation of a sequence of sequences, in order. */
  function Concat<T>(parts: seq<seq<T>>): seq<T> {
    if parts == [] then [] else parts[0] + Concat(parts[1..])
  }

  /** Appending one more part appends its elements at the end. */
  lemma {:induction false} ConcatAppend<T>(parts: seq<seq<T>>, last: seq<T>)
    ensures Concat(parts + [last]) == Concat(parts) + last
  {
    if parts == [] {
      assert [] + [last] == [last];
      assert Concat([last]) == last + Concat([]);
    } else {
      assert (parts + [last])[1..] == parts[1..] + [last];
      ConcatAppend(parts[1..], last);
    }
  }

  /** With no empty part, the concatenation is empty only for no parts. */
  lemma {:induction false} ConcatEmpty<T>(parts: seq<seq<T>>)
    requires forall i :: 0 <= i < |parts| ==> parts[i] != []
    ensures Concat(parts) == [] <==> parts == []
  {
    if parts != [] {
      assert parts[0] != [];
      assert |Concat(parts)| >= |parts[0]|;
    }
  }
}
