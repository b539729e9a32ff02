/**
 * The decoder's data path (tools/jrtc-ctl/services/decoder/serve_data.go):
 * each UDP datagram of at least 16 bytes is split into the stream id (its
 * first 16 bytes) and the payload (the rest) and offered to a bounded
 * queue without blocking. The socket is abstracted as the sequence of what
 * each iteration of the loop observes.
 */
module DecoderData {
  import opened Wrappers
  import opened StreamIdText
  import opened DecoderRun

  /** The length of the stream id at the head of a datagram. */
  const STREAM_ID_LEN := 16

  /** What one iteration of the serving loop observes. */
  datatype Observation =
    | Datagram(bytes: seq<bv8>)       // `ReadFrom` filled `bytes` (at most the buffer size)
    | Timeout                         // the one-second read deadline passed
    | ReadError(message: string)      // any other read error
    | DeadlineError(message: string)  // `SetReadDeadline` failed
    | Cancelled                       // the context is done
  {
    /** The observations that end the loop. */
    predicate Ends()
    {
      Cancelled? || ReadError? || DeadlineError?
    }
  }

  /** How the loop ends, if it does within the observations. */
  datatype Outcome = Stopped(err: Option<string>) | Serving

  /** The error returned for a failed read: the read error joined with the loop's own. */
  function ReadFailure(message: string): string
  {
    message + "\n" + "error reading from UDP socket"
  }

  /** The record of a datagram, or `None` for one shorter than a stream id. */
  function Frame(d: seq<bv8>): (r: Option<RecData>)
    ensures r.Some? <==> |d| >= STREAM_ID_LEN
  {
    if |d| < STREAM_ID_LEN then None
    else Some(RecData(d[STREAM_ID_LEN..], FromBytes(d[..STREAM_ID_LEN])))
  }

  /** The stream id and the payload of a record, put back together, give the datagram. */
  lemma FrameSplits(d: seq<bv8>)
    requires |d| >= STREAM_ID_LEN
    ensures Bytes(Frame(d).value.streamUuid) + Frame(d).value.payload == d
  {
    BytesFromBytes(d[..STREAM_ID_LEN]);
    assert d[..STREAM_ID_LEN] + d[STREAM_ID_LEN..] == d;
  }

  /** A non-blocking send on a channel with room for `capacity` records: dropped when full. */
  function Push(items: seq<RecData>, capacity: nat, r: RecData): seq<RecData>
  {
    if |items| < capacity then items + [r] else items
  }

  /**
   * The loop from observation `i` on, with `items` in the queue: the queue
   * keeps `items` as a prefix and grows only up to its capacity, and the
   * loop stops with no error exactly at a cancellation.
   */
  function Serve(obs: seq<Observation>, i: nat, items: seq<RecData>, capacity: nat): (r: (Outcome, seq<RecData>))
    requires i <= |obs|
    ensures items <= r.1
    ensures |r.1| <= |items| || |r.1| <= capacity
    ensures r.0 == Stopped(None) ==> exists k :: i <= k < |obs| && obs[k].Cancelled?
    decreases |obs| - i
  {
    if i == |obs| then (Serving, items)
    else match obs[i]
      case Cancelled => (Stopped(None), items)
      case ReadError(m) => (Stopped(Some(ReadFailure(m))), items)
      case DeadlineError(m) => (Stopped(Some(m)), items)
      case Timeout => Serve(obs, i + 1, items, capacity)
      case Datagram(d) =>
        match Frame(d)
        case None => Serve(obs, i + 1, items, capacity)
        case Some(r) => Serve(obs, i + 1, Push(items, capacity, r), capacity)
  }

  /** The records of the long-enough datagrams among `obs[i..j]`, in order. */
  function Frames(obs: seq<Observation>, i: nat, j: nat): seq<RecData>
    requires i <= j <= |obs|
    decreases j - i
  {
    if i == j then []
    else
      var rest := Frames(obs, i + 1, j);
      if obs[i].Datagram? && Frame(obs[i].bytes).Some? then [Frame(obs[i].bytes).value] + rest else rest
  }

  /** The index of the observation that ends the loop, or `|obs|`. */
  function StopAt(obs: seq<Observation>, i: nat): (k: nat)
    requires i <= |obs|
    ensures i <= k <= |obs|
    ensures forall j :: i <= j < k ==> obs[j].Datagram? || obs[j].Timeout?
    ensures k < |obs| ==> obs[k].Ends()
    decreases |obs| - i
  {
    if i == |obs| || obs[i].Ends() then i else StopAt(obs, i + 1)
  }

  /**
   * The loop ends exactly at the first cancellation, read error or failure to
   * set the deadline: `nil` for the cancellation, the joined error for the
   * read error, the deadline error itself, unjoined; short datagrams and
   * timeouts only continue it.
   */
  lemma {:induction false} ServeStops(obs: seq<Observation>, i: nat, items: seq<RecData>, capacity: nat)
    requires i <= |obs|
    ensures var (o, _) := Serve(obs, i, items, capacity); var k := StopAt(obs, i);
      (k == |obs| ==> o == Serving) &&
      (k < |obs| && obs[k].Cancelled? ==> o == Stopped(None)) &&
      (k < |obs| && obs[k].ReadError? ==> o == Stopped(Some(ReadFailure(obs[k].message)))) &&
      (k < |obs| && obs[k].DeadlineError? ==> o == Stopped(Some(obs[k].message)))
    decreases |obs| - i
  {
    if i < |obs| && !obs[i].Ends() {
      var items' := if obs[i].Datagram? && Frame(obs[i].bytes).Some? then Push(items, capacity, Frame(obs[i].bytes).value) else items;
      ServeStops(obs, i + 1, items', capacity);
    }
  }

  /**
   * The queue never loses or reorders what it held: the old records stay as
   * a prefix, and it grows only while below capacity.
   */
  lemma {:induction false} ServeKeepsQueue(obs: seq<Observation>, i: nat, items: seq<RecData>, capacity: nat)
    requires i <= |obs|
    ensures var items' := Serve(obs, i, items, capacity).1;
      |items| <= |items'| && items'[..|items|] == items && (|items'| > |items| ==> |items'| <= capacity)
    decreases |obs| - i
  {
    if i < |obs| && !obs[i].Ends() {
      var pushed := if obs[i].Datagram? && Frame(obs[i].bytes).Some? then Push(items, capacity, Frame(obs[i].bytes).value) else items;
      ServeKeepsQueue(obs, i + 1, pushed, capacity);
      var items' := Serve(obs, i + 1, pushed, capacity).1;
      assert items'[..|pushed|][..|items|] == items'[..|items|];
    }
  }

  /** When there is room for every record, all of them are enqueued, in arrival order. */
  lemma {:induction false} ServeEnqueuesAll(obs: seq<Observation>, i: nat, items: seq<RecData>, capacity: nat)
    requires i <= |obs|
    requires |items| + |Frames(obs, i, StopAt(obs, i))| <= capacity
    ensures Serve(obs, i, items, capacity).1 == items + Frames(obs, i, StopAt(obs, i))
    decreases |obs| - i
  {
    if i < |obs| && !obs[i].Ends() {
      var k := StopAt(obs, i);
      assert k == StopAt(obs, i + 1);
      if obs[i].Datagram? && Frame(obs[i].bytes).Some? {
        var r := Frame(obs[i].bytes).value;
        assert Frames(obs, i, k) == [r] + Frames(obs, i + 1, k);
        var pushed := items + [r];
        ServeEnqueuesAll(obs, i + 1, pushed, capacity);
        assert items + Frames(obs, i, k) == pushed + Frames(obs, i + 1, k);
      } else {
        ServeEnqueuesAll(obs, i + 1, items, capacity);
      }
    }
  }

  /** A datagram shorter than a stream id is skipped: it enqueues nothing. */
  lemma ShortDatagramSkipped(obs: seq<Observation>, i: nat, items: seq<RecData>, capacity: nat)
    requires i < |obs| && obs[i].Datagram? && |obs[i].bytes| < STREAM_ID_LEN
    ensures Serve(obs, i, items, capacity) == Serve(obs, i + 1, items, capacity)
  {
  }

  /** A full queue drops the record and keeps its contents. */
  lemma FullQueueDrops(items: seq<RecData>, capacity: nat, r: RecData)
    requires |items| >= capacity
    ensures Push(items, capacity, r) == items
  {
  }

  /** The outgoing queue: a buffered channel of `capacity` records. */
  class OutQueue {
    const capacity: nat
    var items: seq<RecData>

    constructor (capacity: nat)
      ensures this.capacity == capacity && items == []
    {
      this.capacity := capacity;
      items := [];
    }

    /** `select { case outQ <- r: default: }`. */
    method TrySend(r: RecData) returns (sent: bool)
      modifies this
      ensures items == Push(old(items), capacity, r)
      ensures sent <==> |old(items)| < capacity
    {
      sent := |items| < capacity;
      if sent {
        items := items + [r];
      }
    }
  }

  /** `serveData`, over the observations of its iterations. */
  method ServeData(obs: seq<Observation>, outQ: OutQueue) returns (o: Outcome)
    modifies outQ
    ensures (o, outQ.items) == Serve(obs, 0, old(outQ.items), outQ.capacity)
  {
    var i := 0;
    while i < |obs|
      invariant 0 <= i <= |obs|
      invariant Serve(obs, 0, old(outQ.items), outQ.capacity) == Serve(obs, i, outQ.items, outQ.capacity)
    {
      match obs[i] {
        case Cancelled =>
          return Stopped(None);
        case DeadlineError(m) =>
          return Stopped(Some(m));
        case ReadError(m) =>
          return Stopped(Some(ReadFailure(m)));
        case Timeout =>
        case Datagram(buffer) =>
          if |buffer| >= STREAM_ID_LEN {
            var streamUuid := FromBytes(buffer[..STREAM_ID_LEN]);
            var payload := buffer[STREAM_ID_LEN..];
            var _ := outQ.TrySend(RecData(payload, streamUuid));
          }
      }
      i := i + 1;
    }
    return Serving;
  }
}
