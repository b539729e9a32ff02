/**
 * The C/C++ application wrapper (src/wrapper_apis/c/jrtc_app.cpp): an app
 * is configured with a list of streams; `Init` turns each into a stream id,
 * an optional channel and an optional registration, `run` hands every
 * received entry to the first receiving stream it matches, and `CleanUp`
 * undoes what `Init` set up. The router calls are parameters: what
 * generation, channel creation, registration and the waits return.
 */
module JrtcAppWrapper {
  import opened Wrappers
  import opened StreamIdCodec

  datatype StreamIdCfg = StreamIdCfg(destination: int, deviceId: int, streamSource: Option<string>, ioMap: Option<string>)

  datatype ChannelCfg = ChannelCfg(isOutput: bool, numElems: int, elemSize: int)

  /** `JrtcStreamCfg_t`. */
  datatype StreamCfg = StreamCfg(sid: StreamIdCfg, isRx: bool, appChannel: Option<ChannelCfg>)

  /** A non-null `dapp_channel_ctx_t`. */
  type Chan = nat

  /** `JrtcApp::StreamItem`; `chanCtx` is `None` for a null context. */
  datatype StreamItem = StreamItem(sid: StreamId, registered: bool, chanCtx: Option<Chan>)

  /** A received `jrtc_router_data_entry_t`: the stream it came on and its buffer. */
  datatype DataEntry = DataEntry(streamId: StreamId, data: nat)

  /**
   * What the router's calls return during `Init`: the generated id (`None`
   * when the result is not 1), the created channel (`None` for NULL),
   * whether registration returned 1, whether `initialization_timeout_secs`
   * is positive, whether that timeout has passed after stream `i`, and
   * whether a transmit channel appears (before the timeout, when there is one).
   */
  datatype Router = Router(
    generate: StreamIdCfg -> Option<StreamId>,
    create: (ChannelCfg, StreamId) -> Option<Chan>,
    register: StreamId -> bool,
    hasTimeout: bool,
    timedOut: nat -> bool,
    inputExists: StreamId -> bool)

  // ---------------------------------------------------------------- Init, on values

  function AsSeq<T>(o: Option<T>): (r: seq<T>)
    ensures o.None? ==> r == []
    ensures o.Some? ==> r == [o.value]
  {
    if o.Some? then [o.value] else []
  }

  /** Where `Init`'s first loop stands: the result so far, the items pushed and the channels created. */
  datatype InitState = InitState(rc: int, items: seq<StreamItem>, created: seq<Chan>)

  /**
   * One pass of the first loop for stream `s`, the `i`th. As written
   * (`keepFailed` false) a stream whose registration fails is not pushed,
   * even when a channel was created for it; corrected, it is pushed
   * unregistered, so that `CleanUp` destroys its channel.
   */
  function InitStep(st: InitState, s: StreamCfg, i: nat, r: Router, keepFailed: bool): InitState
  {
    match r.generate(s.sid)
    case None => st.(rc := -1)
    case Some(sid) =>
      var chan := if s.appChannel.Some? then r.create(s.appChannel.value, sid) else None;
      if s.appChannel.Some? && chan.None? then st.(rc := -1)
      else
        var created := st.created + (if chan.Some? then [chan.value] else []);
        if s.isRx && !r.register(sid) then
          InitState(-1, if keepFailed then st.items + [StreamItem(sid, false, chan)] else st.items, created)
        else
          InitState(if r.hasTimeout && r.timedOut(i) then -1 else 0, st.items + [StreamItem(sid, s.isRx, chan)], created)
  }

  /** The first loop: it stops at the first failure. */
  function CreateStreams(streams: seq<StreamCfg>, r: Router, keepFailed: bool): InitState
  {
    if streams == [] then InitState(0, [], [])
    else
      var st := CreateStreams(streams[..|streams| - 1], r, keepFailed);
      if st.rc != 0 then st else InitStep(st, streams[|streams| - 1], |streams| - 1, r, keepFailed)
  }

  /** Once a prefix has failed, the longer list fails the same way. */
  lemma {:induction false} CreateStreamsSticks(streams: seq<StreamCfg>, n: nat, r: Router, keepFailed: bool)
    requires n <= |streams| && CreateStreams(streams[..n], r, keepFailed).rc != 0
    ensures CreateStreams(streams, r, keepFailed) == CreateStreams(streams[..n], r, keepFailed)
    decreases |streams| - n
  {
    if n < |streams| {
      assert streams[..n + 1][..n] == streams[..n];
      CreateStreamsSticks(streams, n + 1, r, keepFailed);
    } else {
      assert streams[..n] == streams;
    }
  }

  /** The second loop's condition: every transmit stream without a channel of its own finds its input channel. */
  predicate InputsExist(streams: seq<StreamCfg>, items: seq<StreamItem>, r: Router)
    requires |items| == |streams|
  {
    forall i :: 0 <= i < |streams| && !streams[i].isRx && items[i].chanCtx.None? ==> r.inputExists(items[i].sid)
  }

  /**
   * How `Init` ends: it returns a code, or, with no positive timeout, it
   * waits forever for a transmit stream's input channel that never appears.
   */
  datatype InitResult = Returns(rc: int) | WaitsForever

  /** `Init`'s result: the first loop's code, then the second loop's wait. */
  function InitResultOf(streams: seq<StreamCfg>, r: Router, keepFailed: bool): InitResult
  {
    var st := CreateStreams(streams, r, keepFailed);
    if st.rc == 0 && |st.items| == |streams| && !InputsExist(streams, st.items, r) then
      (if r.hasTimeout then Returns(-1) else WaitsForever)
    else Returns(st.rc)
  }

  /**
   * `Init` as written: its result and the items and channels it leaves. It
   * returns 0 or -1 unless it waits forever, which needs no positive
   * timeout, and 0 only with one item per stream and every transmit
   * stream's input channel found.
   */
  function InitAsWritten(streams: seq<StreamCfg>, r: Router): (res: (InitResult, InitState))
    ensures res.0 == Returns(0) || res.0 == Returns(-1) || (res.0 == WaitsForever && !r.hasTimeout)
    ensures res.0 == Returns(0) ==> |res.1.items| == |streams| && InputsExist(streams, res.1.items, r)
  {
    CreateStreamsShape(streams, r, false);
    (InitResultOf(streams, r, false), CreateStreams(streams, r, false))
  }

  /**
   * `Init` waits forever exactly when there is no positive timeout, the first
   * loop succeeds and some transmit stream without a channel of its own
   * never finds its input channel; with a timeout that case returns -1.
   * The correction of the first loop does not change the result.
   */
  lemma InitWaitsIff(streams: seq<StreamCfg>, r: Router, keepFailed: bool)
    ensures var st := CreateStreams(streams, r, keepFailed);
      InitResultOf(streams, r, keepFailed) == WaitsForever <==>
        !r.hasTimeout && st.rc == 0 && |st.items| == |streams| &&
        exists i :: 0 <= i < |streams| && !streams[i].isRx && st.items[i].chanCtx.None? && !r.inputExists(st.items[i].sid)
    ensures r.hasTimeout ==> InitResultOf(streams, r, keepFailed).Returns?
    ensures InitResultOf(streams, r, true) == InitResultOf(streams, r, false)
  {
    CreateStreamsShape(streams, r, keepFailed);
    CreateStreamsShape(streams, r, true);
    CorrectionKeepsOutcome(streams, r);
  }

  /** The registered ids, in order: what `CleanUp` deregisters. */
  function Registered(items: seq<StreamItem>): seq<StreamId>
  {
    if items == [] then []
    else Registered(items[..|items| - 1]) + (if items[|items| - 1].registered then [items[|items| - 1].sid] else [])
  }

  /** The non-null channels, in order: what `CleanUp` destroys. */
  function Channels(items: seq<StreamItem>): seq<Chan>
  {
    if items == [] then []
    else Channels(items[..|items| - 1]) + (if items[|items| - 1].chanCtx.Some? then [items[|items| - 1].chanCtx.value] else [])
  }

  lemma ChannelsSnoc(items: seq<StreamItem>, it: StreamItem)
    ensures Channels(items + [it]) == Channels(items) + (if it.chanCtx.Some? then [it.chanCtx.value] else [])
  {
    assert (items + [it])[..|items|] == items;
  }

  /**
   * The first loop returns 0 or -1; on 0 there is one item per stream, and
   * an item is registered exactly when its stream receives; on -1 the items
   * are a prefix of the streams, and only receiving ones are registered.
   */
  lemma {:induction false} CreateStreamsShape(streams: seq<StreamCfg>, r: Router, keepFailed: bool)
    ensures var st := CreateStreams(streams, r, keepFailed);
      (st.rc == 0 || st.rc == -1) && |st.items| <= |streams| &&
      (st.rc == 0 ==> |st.items| == |streams|) &&
      (forall i :: 0 <= i < |st.items| && st.items[i].registered ==> streams[i].isRx) &&
      (st.rc == 0 ==> forall i :: 0 <= i < |st.items| ==> (st.items[i].registered <==> streams[i].isRx))
  {
    if streams != [] {
      var init := streams[..|streams| - 1];
      CreateStreamsShape(init, r, keepFailed);
      assert forall i :: 0 <= i < |init| ==> init[i] == streams[i];
    }
  }

  /** Corrected, every channel the first loop creates is held by an item, so `CleanUp` destroys it. */
  lemma {:induction false} CreateStreamsKeepsChannels(streams: seq<StreamCfg>, r: Router)
    ensures var st := CreateStreams(streams, r, true); Channels(st.items) == st.created
  {
    if streams != [] {
      var init := streams[..|streams| - 1];
      CreateStreamsKeepsChannels(init, r);
      var st0 := CreateStreams(init, r, true);
      if st0.rc == 0 {
        StepKeepsChannels(st0, streams[|streams| - 1], |streams| - 1, r);
      }
    }
  }

  /** Corrected, one pass of the first loop keeps every created channel in an item. */
  lemma StepKeepsChannels(st: InitState, s: StreamCfg, i: nat, r: Router)
    requires Channels(st.items) == st.created
    ensures var st' := InitStep(st, s, i, r, true); Channels(st'.items) == st'.created
  {
    if r.generate(s.sid).Some? {
      var sid := r.generate(s.sid).value;
      var chan := if s.appChannel.Some? then r.create(s.appChannel.value, sid) else None;
      if !(s.appChannel.Some? && chan.None?) {
        if s.isRx && !r.register(sid) {
          ChannelsSnoc(st.items, StreamItem(sid, false, chan));
        } else {
          ChannelsSnoc(st.items, StreamItem(sid, s.isRx, chan));
        }
      }
    }
  }

  /**
   * The correction changes nothing but the items left after a failed
   * registration: the result and the channels created are the same, and
   * so are the items whenever the loop succeeds.
   */
  lemma {:induction false} CorrectionKeepsOutcome(streams: seq<StreamCfg>, r: Router)
    ensures var fixed := CreateStreams(streams, r, true);
      var orig := CreateStreams(streams, r, false);
      orig.rc == fixed.rc && orig.created == fixed.created && (orig.rc == 0 ==> orig.items == fixed.items)
  {
    if streams != [] {
      CorrectionKeepsOutcome(streams[..|streams| - 1], r);
    }
  }

  /**
   * As written, a receiving stream whose channel is created but whose
   * registration fails leaves that channel out of the items, so `CleanUp`
   * never destroys it.
   */
  lemma InitAsWrittenLeaksChannel(sid: StreamId)
    ensures var s := StreamCfg(StreamIdCfg(0, 0, None, None), true, Some(ChannelCfg(false, 1, 1)));
      var r := Router(_ => Some(sid), (_, _) => Some(7), _ => false, true, _ => false, _ => true);
      var st := InitAsWritten([s], r).1;
      InitAsWritten([s], r).0 == Returns(-1) && st.rc == -1 && st.created == [7] && Channels(st.items) == []
  {
    var s := StreamCfg(StreamIdCfg(0, 0, None, None), true, Some(ChannelCfg(false, 1, 1)));
    assert [s][..0] == [];
  }

  // ---------------------------------------------------------------- dispatch

  /** The stream a received entry goes to: the smallest receiving stream, from `from` on, whose id it matches. */
  function FirstMatch(streams: seq<StreamCfg>, items: seq<StreamItem>, id: StreamId, from: nat): Option<nat>
    requires |items| == |streams|
    decreases |streams| - from
  {
    if from >= |streams| then None
    else if streams[from].isRx && MatchesReq(id, items[from].sid) then Some(from)
    else FirstMatch(streams, items, id, from + 1)
  }

  predicate Takes(streams: seq<StreamCfg>, items: seq<StreamItem>, id: StreamId, k: nat)
    requires |items| == |streams| && k < |streams|
  {
    streams[k].isRx && MatchesReq(id, items[k].sid)
  }

  /** `FirstMatch` finds the first receiving stream that matches, and `None` means there is none. */
  lemma {:induction false} FirstMatchIsFirst(streams: seq<StreamCfg>, items: seq<StreamItem>, id: StreamId, from: nat)
    requires |items| == |streams|
    ensures var r := FirstMatch(streams, items, id, from);
      (r.None? <==> forall k :: from <= k < |streams| ==> !Takes(streams, items, id, k)) &&
      (r.Some? ==> from <= r.value < |streams| && Takes(streams, items, id, r.value) &&
                   forall k :: from <= k < r.value ==> !Takes(streams, items, id, k))
    decreases |streams| - from
  {
    if from < |streams| && !Takes(streams, items, id, from) {
      FirstMatchIsFirst(streams, items, id, from + 1);
    }
  }

  /** The handler calls `run` makes for a batch of entries: one per matched entry, in order. */
  function Handled(streams: seq<StreamCfg>, items: seq<StreamItem>, entries: seq<DataEntry>): seq<(nat, DataEntry)>
    requires |items| == |streams|
  {
    if entries == [] then []
    else
      var e := entries[|entries| - 1];
      Handled(streams, items, entries[..|entries| - 1]) +
        (match FirstMatch(streams, items, e.streamId, 0) case Some(k) => [(k, e)] case None => [])
  }

  /**
   * Every handler call is for an entry of the batch, with the index of the
   * first stream it matches; every matched entry gets a call.
   */
  lemma {:induction false} HandledAreFirstMatches(streams: seq<StreamCfg>, items: seq<StreamItem>, entries: seq<DataEntry>)
    requires |items| == |streams|
    ensures forall c :: c in Handled(streams, items, entries) ==>
      c.1 in entries && FirstMatch(streams, items, c.1.streamId, 0) == Some(c.0)
    ensures forall e :: e in entries && FirstMatch(streams, items, e.streamId, 0).Some? ==>
      (FirstMatch(streams, items, e.streamId, 0).value, e) in Handled(streams, items, entries)
  {
    if entries != [] {
      var init := entries[..|entries| - 1];
      HandledAreFirstMatches(streams, items, init);
      assert entries == init + [entries[|entries| - 1]];
    }
  }

  // ---------------------------------------------------------------- the app

  predicate IsInt32(x: int)
  {
    -0x8000_0000 <= x < 0x8000_0000
  }

  /** The least `size_t` a negative `int` converts to: 2^64 - 2^31. */
  const WRAPPED_MIN: nat := 0xFFFF_FFFF_8000_0000

  /** The conversion of an `int` to a 64-bit `size_t`: modulo 2^64. */
  function SizeT(x: int): (r: nat)
    requires IsInt32(x)
    ensures r < 0x1_0000_0000_0000_0000 && (r - x) % 0x1_0000_0000_0000_0000 == 0
  {
    if x >= 0 then x else x + 0x1_0000_0000_0000_0000
  }

  class JrtcApp {
    /** `app_cfg->streams`. */
    const streams: seq<StreamCfg>
    /** `stream_items`. */
    var streamItems: seq<StreamItem>
    /** The channels `Init` has created. */
    ghost var created: seq<Chan>

    /** `num_streams` is an `int`, and items are pushed one per stream. */
    ghost predicate Valid()
      reads this
    {
      |streams| < 0x8000_0000 && |streamItems| <= |streams|
    }

    constructor (streams: seq<StreamCfg>)
      requires |streams| < 0x8000_0000
      ensures Valid() && this.streams == streams && streamItems == [] && created == []
    {
      this.streams := streams;
      streamItems := [];
      created := [];
    }

    /**
     * `Init`, with the failed stream's channel kept: -1 at the first failed
     * generation, channel creation, registration or timeout, then at the
     * first transmit stream whose input channel does not appear before the
     * timeout; with no positive timeout that wait never ends. Else 0.
     */
    method Init(r: Router) returns (res: InitResult)
      requires Valid() && streamItems == [] && created == []
      modifies this
      ensures Valid()
      ensures res == InitResultOf(streams, r, true)
      ensures streamItems == CreateStreams(streams, r, true).items && created == CreateStreams(streams, r, true).created
    {
      var i := 0;
      while i < |streams|
        invariant 0 <= i <= |streams|
        invariant CreateStreams(streams[..i], r, true) == InitState(0, streamItems, created)
        invariant |streamItems| == i
      {
        assert streams[..i + 1][..i] == streams[..i];
        var rc, pushed, made := CreateOne(streams[i], i, r);
        streamItems := streamItems + AsSeq(pushed);
        created := created + AsSeq(made);
        if rc != 0 {
          CreateStreamsSticks(streams, i + 1, r, true);
          CreateStreamsShape(streams, r, true);
          return Returns(-1);
        }
        i := i + 1;
      }
      assert streams[..i] == streams;
      i := 0;
      while i < |streams|
        invariant 0 <= i <= |streams|
        invariant forall j :: 0 <= j < i && !streams[j].isRx && streamItems[j].chanCtx.None? ==> r.inputExists(streamItems[j].sid)
      {
        if !streams[i].isRx && streamItems[i].chanCtx.None? && !r.inputExists(streamItems[i].sid) {
          if r.hasTimeout {
            return Returns(-1);
          }
          return WaitsForever;
        }
        i := i + 1;
      }
      return Returns(0);
    }

    /**
     * One pass of the first loop, on the current items: the result, the
     * item pushed and the channel created, if any.
     */
    method CreateOne(s: StreamCfg, i: nat, r: Router) returns (rc: int, pushed: Option<StreamItem>, made: Option<Chan>)
      ensures InitStep(InitState(0, streamItems, created), s, i, r, true) ==
              InitState(rc, streamItems + AsSeq(pushed), created + AsSeq(made))
    {
      var gen := r.generate(s.sid);
      if gen.None? {
        return -1, None, None;
      }
      var sid := gen.value;
      var chan: Option<Chan> := None;
      if s.appChannel.Some? {
        chan := r.create(s.appChannel.value, sid);
        if chan.None? {
          return -1, None, None;
        }
      }
      var registered := false;
      if s.isRx {
        if !r.register(sid) {
          return -1, Some(StreamItem(sid, false, chan)), chan;
        }
        registered := true;
      }
      rc := if r.hasTimeout && r.timedOut(i) then -1 else 0;
      return rc, Some(StreamItem(sid, registered, chan)), chan;
    }

    /**
     * `CleanUp`: the ids deregistered and the channels destroyed, each in
     * item order; it runs on whatever `Init` left, failed or not.
     */
    method CleanUp() returns (deregistered: seq<StreamId>, destroyed: seq<Chan>)
      ensures deregistered == Registered(streamItems) && destroyed == Channels(streamItems)
    {
      deregistered, destroyed := [], [];
      var i := 0;
      while i < |streamItems|
        invariant 0 <= i <= |streamItems|
        invariant deregistered == Registered(streamItems[..i]) && destroyed == Channels(streamItems[..i])
      {
        var si := streamItems[i];
        assert streamItems[..i + 1][..i] == streamItems[..i];
        if si.registered {
          deregistered := deregistered + [si.sid];
        }
        if si.chanCtx.Some? {
          destroyed := destroyed + [si.chanCtx.value];
        }
        i := i + 1;
      }
      assert streamItems[..i] == streamItems;
    }

    /** The inner search of `run`: the first receiving stream the id matches. */
    method FindStream(id: StreamId) returns (found: bool, sidx: nat)
      requires |streamItems| == |streams|
      ensures found <==> FirstMatch(streams, streamItems, id, 0).Some?
      ensures found ==> sidx == FirstMatch(streams, streamItems, id, 0).value
    {
      found := false;
      sidx := 0;
      while sidx < |streams|
        invariant 0 <= sidx <= |streams|
        invariant FirstMatch(streams, streamItems, id, 0) == FirstMatch(streams, streamItems, id, sidx)
      {
        if streams[sidx].isRx && MatchesReq(id, streamItems[sidx].sid) {
          found := true;
          return;
        }
        sidx := sidx + 1;
      }
    }

    /**
     * One batch of `run`'s receive loop: the handler calls made, and the
     * buffers released, one per entry, matched or not.
     */
    method Dispatch(entries: seq<DataEntry>) returns (calls: seq<(nat, DataEntry)>, released: seq<nat>)
      requires |streamItems| == |streams|
      ensures calls == Handled(streams, streamItems, entries)
      ensures |released| == |entries| && forall i :: 0 <= i < |entries| ==> released[i] == entries[i].data
    {
      calls, released := [], [];
      var i := 0;
      while i < |entries|
        invariant 0 <= i <= |entries|
        invariant calls == Handled(streams, streamItems, entries[..i])
        invariant |released| == i && forall j :: 0 <= j < i ==> released[j] == entries[j].data
      {
        assert entries[..i + 1][..i] == entries[..i];
        var found, sidx := FindStream(entries[i].streamId);
        if found {
          calls := calls + [(sidx, entries[i])];
        }
        released := released + [entries[i].data];
        i := i + 1;
      }
      assert entries[..i] == entries;
    }

    /**
     * `get_stream`: the `int` index is cast to `size_t`, so a negative one
     * wraps far out of range: the id of an existing item, NULL otherwise.
     */
    function GetStream(idx: int): (r: Option<StreamId>)
      requires IsInt32(idx)
      reads this
      ensures 0 <= idx < |streamItems| ==> r == Some(streamItems[idx].sid)
      ensures !(0 <= idx < |streamItems|) && |streamItems| <= WRAPPED_MIN ==> r.None?
    {
      if SizeT(idx) < |streamItems| then Some(streamItems[SizeT(idx)].sid) else None
    }

    /** `get_chan_ctx`, with the same cast: the channel of an existing item, NULL otherwise. */
    function GetChanCtx(idx: int): (r: Option<Chan>)
      requires IsInt32(idx)
      reads this
      ensures 0 <= idx < |streamItems| ==> r == streamItems[idx].chanCtx
      ensures !(0 <= idx < |streamItems|) && |streamItems| <= WRAPPED_MIN ==> r.None?
    {
      if SizeT(idx) < |streamItems| then streamItems[SizeT(idx)].chanCtx else None
    }

    /** `jrtc_app_router_channel_reserve_buf`: NULL without an item or a channel, else the channel's buffer. */
    function ReserveBuf(idx: int, reserve: Chan -> Option<nat>): (r: Option<nat>)
      requires IsInt32(idx)
      reads this
      ensures 0 <= idx < |streamItems| && streamItems[idx].chanCtx.Some? ==> r == reserve(streamItems[idx].chanCtx.value)
      ensures 0 <= idx < |streamItems| && streamItems[idx].chanCtx.None? ==> r.None?
      ensures !(0 <= idx < |streamItems|) && |streamItems| <= WRAPPED_MIN ==> r.None?
    {
      match GetChanCtx(idx)
      case None => None
      case Some(c) => reserve(c)
    }

    /** `jrtc_app_router_channel_send_output` and `..._send_output_msg`: -1 without an item or a channel. */
    function SendOutput(idx: int, send: Chan -> int): (r: int)
      requires IsInt32(idx)
      reads this
      ensures 0 <= idx < |streamItems| && streamItems[idx].chanCtx.Some? ==> r == send(streamItems[idx].chanCtx.value)
      ensures 0 <= idx < |streamItems| && streamItems[idx].chanCtx.None? ==> r == -1
      ensures !(0 <= idx < |streamItems|) && |streamItems| <= WRAPPED_MIN ==> r == -1
    {
      match GetChanCtx(idx)
      case None => -1
      case Some(c) => send(c)
    }

    /**
     * `jrtc_app_router_channel_send_input_msg`: its `uint` index becomes a
     * (possibly negative) `int`, so an index of 2^31 or more gets -1.
     */
    function SendInputMsg(idx: nat, send: StreamId -> int): (r: int)
      requires idx < 0x1_0000_0000
      reads this
      ensures idx < |streamItems| && idx < 0x8000_0000 ==> r == send(streamItems[idx].sid)
      ensures (idx >= |streamItems| || idx >= 0x8000_0000) && |streamItems| <= WRAPPED_MIN ==> r == -1
    {
      var asInt := if idx < 0x8000_0000 then idx else idx - 0x1_0000_0000;
      match GetStream(asInt)
      case None => -1
      case Some(sid) => send(sid)
    }
  }

  /** `get_stream` and `get_chan_ctx` answer exactly for the indices of existing items, negative ones included. */
  lemma LookupInRange(app: JrtcApp, idx: int)
    requires app.Valid() && IsInt32(idx)
    ensures app.GetStream(idx).Some? <==> 0 <= idx < |app.streamItems|
    ensures 0 <= idx < |app.streamItems| ==> app.GetStream(idx) == Some(app.streamItems[idx].sid) &&
                                             app.GetChanCtx(idx) == app.streamItems[idx].chanCtx
    ensures !(0 <= idx < |app.streamItems|) ==> app.GetChanCtx(idx).None?
  {
  }

  /** The C wrappers fail for an index without an item or without a channel. */
  lemma WrappersRejectMissing(app: JrtcApp, idx: int, uidx: nat, reserve: Chan -> Option<nat>, send: Chan -> int, sendIn: StreamId -> int)
    requires app.Valid() && IsInt32(idx) && uidx < 0x1_0000_0000
    ensures !(0 <= idx < |app.streamItems|) || app.streamItems[idx].chanCtx.None? ==>
      app.ReserveBuf(idx, reserve).None? && app.SendOutput(idx, send) == -1
    ensures uidx >= |app.streamItems| ==> app.SendInputMsg(uidx, sendIn) == -1
    ensures uidx < |app.streamItems| ==> app.SendInputMsg(uidx, sendIn) == sendIn(app.streamItems[uidx].sid)
  {
    LookupInRange(app, idx);
    var asInt := if uidx < 0x8000_0000 then uidx else uidx - 0x1_0000_0000;
    LookupInRange(app, asInt);
  }
}
