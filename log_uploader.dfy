/**
 * The Log Analytics uploader (tools/jrtc-ctl/services/loganalytics/uploader.go):
 * messages are appended to one byte buffer, separated by commas; when the
 * next message would make the bracketed batch exceed the configured size the
 * buffer is first flushed, that is sent as one JSON array "[...]" and
 * emptied. The flush timer, the lock and the sending goroutines are left out;
 * what `client.send` receives is recorded in order.
 */
module LogUploader {
  import opened Wrappers

  type Bytes = seq<bv8>

  const DELIMITER: bv8 := 0x2C   // ','
  const PREFIX: bv8 := 0x5B      // '['
  const SUFFIX: bv8 := 0x5D      // ']'

  const CLOSED_ERROR := "uploader is closed"

  /** Messages separated by commas. */
  function Join(msgs: seq<Bytes>): Bytes
  {
    if msgs == [] then [] else if |msgs| == 1 then msgs[0] else msgs[0] + [DELIMITER] + Join(msgs[1..])
  }

  /** A batch as sent: the buffer between brackets. */
  function Wrap(body: Bytes): (r: Bytes)
    ensures |r| == |body| + 2 && r[0] == PREFIX && r[|r| - 1] == SUFFIX && r[1..|r| - 1] == body
  {
    [PREFIX] + body + [SUFFIX]
  }

  function Flatten(groups: seq<seq<Bytes>>): seq<Bytes>
  {
    if groups == [] then [] else groups[0] + Flatten(groups[1..])
  }

  /** The bytes sent for each group of messages. */
  function Wire(groups: seq<seq<Bytes>>): (r: seq<Bytes>)
    ensures |r| == |groups|
  {
    seq(|groups|, i requires 0 <= i < |groups| => Wrap(Join(groups[i])))
  }

  lemma WireAppend(a: seq<seq<Bytes>>, b: seq<seq<Bytes>>)
    ensures Wire(a + b) == Wire(a) + Wire(b)
  {
    assert forall i :: 0 <= i < |a + b| ==> Wire(a + b)[i] == (Wire(a) + Wire(b))[i];
  }

  function TotalLength(msgs: seq<Bytes>): nat
  {
    if msgs == [] then 0 else |msgs[0]| + TotalLength(msgs[1..])
  }

  /** Appending one message adds a comma and the message. */
  lemma {:induction false} JoinSnoc(msgs: seq<Bytes>, m: Bytes)
    requires msgs != []
    ensures Join(msgs + [m]) == Join(msgs) + [DELIMITER] + m
  {
    if |msgs| == 1 {
      assert msgs + [m] == [msgs[0], m];
      assert [msgs[0], m][1..] == [m];
    } else {
      assert (msgs + [m])[1..] == msgs[1..] + [m];
      JoinSnoc(msgs[1..], m);
    }
  }

  /** The joined text has the messages' bytes and one comma between each two. */
  lemma {:induction false} JoinLength(msgs: seq<Bytes>)
    requires msgs != []
    ensures |Join(msgs)| == TotalLength(msgs) + |msgs| - 1
  {
    if |msgs| > 1 {
      JoinLength(msgs[1..]);
    } else {
      assert msgs[1..] == [];
    }
  }

  /** A list whose first message is non-empty joins to non-empty text, starting with that message. */
  lemma {:induction false} JoinStartsWithFirst(msgs: seq<Bytes>)
    requires msgs != []
    ensures msgs[0] <= Join(msgs)
  {
  }

  // ---------------------------------------------------------------- one Upload, on values

  /** `Upload`'s test: prefix, buffer, suffix, the message and its delimiter would exceed the limit. */
  predicate Overflows(bufferLen: nat, msgLen: nat, maxBatchSize: nat)
  {
    1 + bufferLen + 1 + msgLen + 1 > maxBatchSize
  }

  /**
   * One `Upload` of `bs` on the messages buffered so far: the groups it
   * flushes (none, or all of them) and the messages buffered afterwards. An
   * empty message written to an empty buffer leaves no trace.
   */
  function Step(pending: seq<Bytes>, bs: Bytes, maxBatchSize: nat): (r: (seq<seq<Bytes>>, seq<Bytes>))
    ensures r.0 == [] || r.0 == [pending]
    ensures r.0 != [] ==> pending != [] && Overflows(|Join(pending)|, |bs|, maxBatchSize)
    ensures bs != [] ==> r.1 != [] && r.1[|r.1| - 1] == bs
  {
    var overflow := Overflows(|Join(pending)|, |bs|, maxBatchSize);
    var flushed := if overflow && pending != [] then [pending] else [];
    var kept := if overflow then [] else pending;
    (flushed, if kept == [] && bs == [] then [] else kept + [bs])
  }

  /** A group fits the limit once bracketed, unless it is a single message. */
  predicate Bounded(group: seq<Bytes>, maxBatchSize: nat)
  {
    |group| <= 1 || |Wrap(Join(group))| <= maxBatchSize
  }

  /** The message leaves no trace: it is empty and the buffer is empty when it is written. */
  predicate Dropped(pending: seq<Bytes>, bs: Bytes, maxBatchSize: nat)
  {
    bs == [] && (pending == [] || Overflows(|Join(pending)|, |bs|, maxBatchSize))
  }

  /**
   * Every message is kept whole and in order: what one step flushes,
   * followed by what it keeps, is what was buffered followed by the new
   * message, unless that is dropped.
   */
  lemma StepKeepsOrder(pending: seq<Bytes>, bs: Bytes, maxBatchSize: nat)
    ensures var (flushed, kept) := Step(pending, bs, maxBatchSize);
      Flatten(flushed) + kept == pending + (if Dropped(pending, bs, maxBatchSize) then [] else [bs])
  {
    var (flushed, kept) := Step(pending, bs, maxBatchSize);
    if flushed != [] {
      assert Flatten(flushed) == pending + Flatten([]);
    }
  }

  /** Batches never exceed the limit, except one made of a single message. */
  lemma StepKeepsBound(pending: seq<Bytes>, bs: Bytes, maxBatchSize: nat)
    requires Bounded(pending, maxBatchSize)
    ensures var (flushed, kept) := Step(pending, bs, maxBatchSize);
      Bounded(kept, maxBatchSize) && forall g :: g in flushed ==> g != [] && Bounded(g, maxBatchSize)
  {
    var (flushed, kept) := Step(pending, bs, maxBatchSize);
    if !Overflows(|Join(pending)|, |bs|, maxBatchSize) && pending != [] {
      JoinSnoc(pending, bs);
    }
  }

  /** A message too large for any batch is buffered alone after the flush, so it is later sent alone, over the limit. */
  lemma OversizedMessageSentAlone(pending: seq<Bytes>, bs: Bytes, maxBatchSize: nat)
    requires bs != [] && |Wrap(bs)| > maxBatchSize
    ensures Step(pending, bs, maxBatchSize).1 == [bs]
    ensures |Wire([Step(pending, bs, maxBatchSize).1])[0]| > maxBatchSize
  {
  }

  /** An empty message after others adds a bare comma, so the batch is "[a,]". */
  lemma EmptyMessageAddsComma(a: Bytes, maxBatchSize: nat)
    requires a != [] && |a| + 4 <= maxBatchSize
    ensures Step([a], [], maxBatchSize) == ([], [a, []])
    ensures Join([a, []]) == a + [DELIMITER]
  {
    JoinSnoc([a], []);
    assert [a] + [[]] == [a, []];
  }

  // ---------------------------------------------------------------- the uploader

  class Uploader {
    const maxBatchSize: nat
    var buffer: Bytes
    /** `timer != nil`. */
    var timerSet: bool
    /** What `client.send` received, in order. */
    var sent: seq<Bytes>
    /** The messages in the buffer. */
    ghost var pending: seq<Bytes>
    /** The messages of each sent batch. */
    ghost var batches: seq<seq<Bytes>>

    ghost predicate Valid()
      reads this
    {
      buffer == Join(pending) && (pending != [] ==> pending[0] != []) && Bounded(pending, maxBatchSize) &&
      sent == Wire(batches) && forall g :: g in batches ==> g != [] && Bounded(g, maxBatchSize)
    }

    /** The uploader `NewUploader` builds: an empty buffer and a running timer. */
    constructor (maxBatchSize: nat)
      ensures Valid() && this.maxBatchSize == maxBatchSize
      ensures buffer == [] && timerSet && sent == [] && pending == [] && batches == []
    {
      this.maxBatchSize := maxBatchSize;
      buffer := [];
      timerSet := true;
      sent := [];
      pending := [];
      batches := [];
    }

    /** `flush`: an empty buffer sends nothing; otherwise the bracketed buffer is sent and the buffer emptied. */
    method Flush()
      requires Valid()
      modifies this
      ensures Valid() && timerSet == old(timerSet)
      ensures old(buffer) == [] ==> buffer == [] && sent == old(sent) && pending == old(pending) && batches == old(batches)
      ensures old(buffer) != [] ==> buffer == [] && sent == old(sent) + [Wrap(old(buffer))] &&
                                    pending == [] && batches == old(batches) + [old(pending)]
    {
      if |buffer| == 0 {
        if pending != [] {
          JoinStartsWithFirst(pending);
        }
        return;
      }
      var toUpload := [PREFIX] + buffer + [SUFFIX];
      buffer := [];
      sent := sent + [toUpload];
      batches := batches + [pending];
      pending := [];
      WireAppend(old(batches), [old(pending)]);
    }

    /** `Upload`: flushes first when the message would not fit, then appends it after a comma unless the buffer is empty. */
    method Upload(bs: Bytes) returns (err: Option<string>)
      requires Valid()
      modifies this
      ensures Valid() && timerSet == old(timerSet)
      ensures !old(timerSet) ==> err == Some(CLOSED_ERROR) && buffer == old(buffer) && sent == old(sent)
      ensures old(timerSet) ==> (err.None? &&
        pending == Step(old(pending), bs, maxBatchSize).1 &&
        batches == old(batches) + Step(old(pending), bs, maxBatchSize).0 &&
        sent == old(sent) + Wire(Step(old(pending), bs, maxBatchSize).0))
    {
      if !timerSet {
        return Some(CLOSED_ERROR);
      }
      StepKeepsBound(pending, bs, maxBatchSize);
      ghost var step := Step(pending, bs, maxBatchSize);
      var currentSize := 1 + |buffer| + 1;
      var newBytesSize := |bs| + 1;
      if currentSize + newBytesSize > maxBatchSize {
        Flush();
      }
      assert batches == old(batches) + step.0;
      var msg := bs;
      if |buffer| != 0 {
        msg := [DELIMITER] + bs;
        JoinSnoc(pending, bs);
      } else if pending != [] {
        JoinStartsWithFirst(pending);
      }
      buffer := buffer + msg;
      if pending != [] || bs != [] {
        pending := pending + [bs];
      }
      WireAppend(old(batches), step.0);
      return None;
    }

    /** `Close`: a final flush; the timer is stopped but never cleared. */
    method Close() returns (err: Option<string>)
      requires Valid()
      modifies this
      ensures Valid() && err.None? && buffer == [] && timerSet == old(timerSet)
      ensures old(buffer) != [] ==> sent == old(sent) + [Wrap(old(buffer))]
      ensures old(buffer) == [] ==> sent == old(sent)
    {
      Flush();
      return None;
    }
  }

  /** `NewUploader`: nothing when disabled, the client's error when it cannot be created. */
  method NewUploader(enabled: bool, clientError: Option<string>, maxBatchSize: nat)
    returns (u: Option<Uploader>, err: Option<string>)
    ensures !enabled ==> u.None? && err.None?
    ensures enabled && clientError.Some? ==> u.None? && err == clientError
    ensures enabled && clientError.None? ==> (err.None? && u.Some? && fresh(u.value) && u.value.Valid() &&
      u.value.maxBatchSize == maxBatchSize && u.value.buffer == [] && u.value.sent == [] && u.value.timerSet)
  {
    if !enabled {
      return None, None;
    }
    if clientError.Some? {
      return None, clientError;
    }
    var up := new Uploader(maxBatchSize);
    return Some(up), None;
  }
}
