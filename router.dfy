/**
 * The router's app registry and subscription table (src/router/jrtc_router.c).
 * Apps reserve one of 128 ids in a bitmap; each app asks for stream ids,
 * possibly with wildcard fields, and the request table maps each asked-for
 * id to the set of apps that asked. An incoming batch is delivered to the
 * union of the apps found under its 16 probe keys, into each app's bounded
 * ring, which the app drains with `receive`.
 */
module Router {
  import opened Wrappers
  import opened StreamIdCodec
  import opened StreamIdGen
  import opened RouterLookup

  const MAX_NUM_APPS: nat := 128
  const MAX_APP_QUEUE_SIZE: nat := 10000
  const DATA_BATCH_SIZE: nat := 16

  /** A ring entry: the shared data buffer (a handle) and the stream id it came with. */
  datatype DataEntry = DataEntry(data: nat, streamId: StreamId)

  /**
   * An app's router context: its id, the queue size it asked for (also the
   * size of its entry pool), the slots of its ring, and the entries waiting
   * in the ring, oldest first.
   */
  datatype App = App(appId: nat, queueSize: nat, ringSlots: bv32, ring: seq<DataEntry>)

  function Min(a: nat, b: nat): nat
  {
    if a < b then a else b
  }

  // ---- app ids (src/router/jrtc_router.c:502-524) ----

  /** The lowest clear bit, or -1 when every bit is set. */
  function FirstClear(bits: seq<bool>): (r: int)
    ensures -1 <= r < |bits|
    ensures r == -1 <==> forall i :: 0 <= i < |bits| ==> bits[i]
    ensures r >= 0 ==> !bits[r] && forall i :: 0 <= i < r ==> bits[i]
  {
    if bits == [] then -1
    else if !bits[0] then 0
    else
      var r := FirstClear(bits[1..]);
      if r == -1 then -1 else r + 1
  }

  // ---- the request table (src/router/jrtc_router.c:665-785) ----

  /** Every stored app set is non-empty and holds valid app ids. */
  ghost predicate TableOk(reqs: RequestTable)
  {
    forall key :: key in reqs ==> reqs[key] != {} && forall a :: a in reqs[key] ==> a < MAX_NUM_APPS
  }

  /** The table after app `a` asks for exactly `sid`: the entry is created if absent, and `a` joins its set. */
  function Registered(reqs: RequestTable, sid: StreamId, a: nat): RequestTable
  {
    reqs[sid := AppsAt(reqs, sid) + {a}]
  }

  /** The table after app `a` withdraws `sid`: `a` leaves the set, and an emptied entry is removed. */
  function Deregistered(reqs: RequestTable, sid: StreamId, a: nat): RequestTable
  {
    if sid !in reqs then reqs
    else if reqs[sid] - {a} == {} then reqs - {sid}
    else reqs[sid := reqs[sid] - {a}]
  }

  /** Registering changes only the set under `sid`, adding `a` to it. */
  lemma RegisteredApps(reqs: RequestTable, sid: StreamId, a: nat, key: StreamId)
    ensures AppsAt(Registered(reqs, sid, a), key) == if key == sid then AppsAt(reqs, key) + {a} else AppsAt(reqs, key)
  {}

  /** Deregistering changes only the set under `sid`, removing `a` from it. */
  lemma DeregisteredApps(reqs: RequestTable, sid: StreamId, a: nat, key: StreamId)
    ensures AppsAt(Deregistered(reqs, sid, a), key) == if key == sid then AppsAt(reqs, key) - {a} else AppsAt(reqs, key)
  {}

  /** Asking twice for the same id is asking once. */
  lemma RegisteredIdempotent(reqs: RequestTable, sid: StreamId, a: nat)
    ensures Registered(Registered(reqs, sid, a), sid, a) == Registered(reqs, sid, a)
  {}

  /** Both updates keep every stored set non-empty and within the app ids. */
  lemma UpdatesKeepTableOk(reqs: RequestTable, sid: StreamId, a: nat)
    requires TableOk(reqs) && a < MAX_NUM_APPS
    ensures TableOk(Registered(reqs, sid, a))
    ensures TableOk(Deregistered(reqs, sid, a))
  {}

  /** Withdrawing a request the app had not made before asking restores the table. */
  lemma DeregisterUndoesRegister(reqs: RequestTable, sid: StreamId, a: nat)
    requires TableOk(reqs) && a !in AppsAt(reqs, sid)
    ensures Deregistered(Registered(reqs, sid, a), sid, a) == reqs
  {
    var r := Deregistered(Registered(reqs, sid, a), sid, a);
    if sid in reqs {
      assert reqs[sid] + {a} - {a} == reqs[sid];
      assert r == reqs[sid := reqs[sid]];
    } else {
      assert r == reqs;
    }
  }

  /** An app that asked for exactly `sid` receives `sid`: the first probe row is `sid` itself. */
  lemma RegisteredReceives(reqs: RequestTable, sid: StreamId, a: nat)
    ensures a in Recipients(Registered(reqs, sid, a), sid)
  {
    ApplyZero(sid);
    assert LookupKey(sid, LookupMask(false, false, false, false)) == sid;
    RecipientsMeaning(Registered(reqs, sid, a), sid, a);
  }

  // ---- delivery into the rings (src/router/jrtc_router.c:212-240) ----

  /**
   * One entry offered to one app: enqueued when the app is a recipient and
   * its entry pool has a free entry (the pool holds `queueSize` entries and
   * each entry sits in the ring until received); otherwise dropped.
   */
  function Enqueue(app: App, recipient: bool, e: DataEntry): (r: App)
    ensures r.appId == app.appId && r.queueSize == app.queueSize && r.ringSlots == app.ringSlots
    ensures |app.ring| <= app.queueSize ==> |r.ring| <= r.queueSize
    ensures r.ring == app.ring || (recipient && |app.ring| < app.queueSize && r.ring == app.ring + [e])
  {
    if recipient && |app.ring| < app.queueSize then app.(ring := app.ring + [e]) else app
  }

  /** One entry offered to the apps with ids in [lo, hi): the part of the iterator's walk from `lo` to `hi`. */
  function DeliveredBetween(apps: map<nat, App>, rcpts: set<nat>, e: DataEntry, lo: nat, hi: nat): map<nat, App>
  {
    map a | a in apps :: Enqueue(apps[a], lo <= a < hi && a in rcpts, e)
  }

  /** One entry offered to every registered recipient. */
  function Delivered(apps: map<nat, App>, rcpts: set<nat>, e: DataEntry): (r: map<nat, App>)
    ensures r.Keys == apps.Keys
    ensures forall a :: a in apps && a !in rcpts ==> r[a] == apps[a]
  {
    map a | a in apps :: Enqueue(apps[a], a in rcpts, e)
  }

  /** The buffers `bufs`, each offered in turn to every registered recipient. */
  function DeliveredAll(apps: map<nat, App>, rcpts: set<nat>, bufs: seq<nat>, sid: StreamId): map<nat, App>
  {
    if bufs == [] then apps
    else Delivered(DeliveredAll(apps, rcpts, bufs[..|bufs| - 1], sid), rcpts, DataEntry(bufs[|bufs| - 1], sid))
  }

  /** A walk over every app id is a delivery to every recipient; an exhausted walk delivers nothing. */
  lemma DeliveredBetweenEnds(apps: map<nat, App>, rcpts: set<nat>, e: DataEntry)
    requires forall a :: a in apps ==> a < MAX_NUM_APPS
    ensures DeliveredBetween(apps, rcpts, e, 0, MAX_NUM_APPS) == Delivered(apps, rcpts, e)
    ensures DeliveredBetween(apps, rcpts, e, MAX_NUM_APPS, MAX_NUM_APPS) == apps
  {}

  /** Delivering all buffers of a batch to a recipient with room enqueues them all, in order. */
  lemma {:induction false} DeliveredAllRing(apps: map<nat, App>, rcpts: set<nat>, bufs: seq<nat>, sid: StreamId, a: nat)
    requires a in apps && a in rcpts && |apps[a].ring| + |bufs| <= apps[a].queueSize
    ensures a in DeliveredAll(apps, rcpts, bufs, sid)
    ensures DeliveredAll(apps, rcpts, bufs, sid)[a].queueSize == apps[a].queueSize
    ensures DeliveredAll(apps, rcpts, bufs, sid)[a].ring == apps[a].ring + Tagged(bufs, sid)
  {
    if bufs != [] {
      var init := bufs[..|bufs| - 1];
      DeliveredAllRing(apps, rcpts, init, sid, a);
      var before := DeliveredAll(apps, rcpts, init, sid);
      assert Tagged(init, sid) + [DataEntry(bufs[|bufs| - 1], sid)] == Tagged(bufs, sid);
    }
  }

  /** As written, a recipient with room for a two-buffer batch gets only the first buffer. */
  lemma ForwardDropsLaterBuffers()
    ensures var apps := map[0 := App(0, 4, 8, [])];
            Delivered(apps, {0}, DataEntry(7, ZERO))[0].ring == [DataEntry(7, ZERO)]
            && 0 in DeliveredAll(apps, {0}, [7, 8], ZERO)
            && DeliveredAll(apps, {0}, [7, 8], ZERO)[0].ring == [DataEntry(7, ZERO), DataEntry(8, ZERO)]
  {
    var apps := map[0 := App(0, 4, 8, [])];
    DeliveredAllRing(apps, {0}, [7, 8], ZERO, 0);
    assert Tagged([7, 8], ZERO) == [DataEntry(7, ZERO), DataEntry(8, ZERO)];
  }

  // ---- receive (src/router/jrtc_router.c:787-825) ----

  /** An input channel of an app: the stream id it was created for and the buffers waiting in it. */
  datatype InChannel = InChannel(streamId: StreamId, pending: seq<nat>)

  /** Buffers tagged with the stream id of the channel they came from. */
  function Tagged(ps: seq<nat>, sid: StreamId): (r: seq<DataEntry>)
    ensures |r| == |ps|
  {
    seq(|ps|, i requires 0 <= i < |ps| => DataEntry(ps[i], sid))
  }

  /**
   * What `receive` reads from the input channels, visited in order, while
   * `room` entries are still wanted: at most `DATA_BATCH_SIZE` and at most
   * `room` from each channel, and no more than the channel holds.
   */
  function ChannelTake(chs: seq<InChannel>, room: nat): (r: seq<DataEntry>)
    ensures |r| <= room
  {
    if chs == [] || room == 0 then []
    else
      var t := Min(Min(DATA_BATCH_SIZE, room), |chs[0].pending|);
      Tagged(chs[0].pending[..t], chs[0].streamId) + ChannelTake(chs[1..], room - t)
  }

  /** Each channel gives at most one batch. */
  lemma {:induction false} ChannelTakeBatches(chs: seq<InChannel>, room: nat)
    ensures |ChannelTake(chs, room)| <= DATA_BATCH_SIZE * |chs|
  {
    if chs != [] && room > 0 {
      var t := Min(Min(DATA_BATCH_SIZE, room), |chs[0].pending|);
      ChannelTakeBatches(chs[1..], room - t);
    }
  }

  /** Reading from channel `c` onwards reads channel `c` first, then the rest with what is still wanted. */
  lemma ChannelTakeFrom(chs: seq<InChannel>, c: nat, room: nat)
    requires c < |chs| && room > 0
    ensures var t := Min(Min(DATA_BATCH_SIZE, room), |chs[c].pending|);
            ChannelTake(chs[c..], room) == Tagged(chs[c].pending[..t], chs[c].streamId) + ChannelTake(chs[c + 1..], room - t)
  {
    assert chs[c..][1..] == chs[c + 1..];
  }

  // ---- send (src/router/jrtc_router.c:827-856) ----

  /** `send_output`: -1 for a NULL channel, else what the submit returns. */
  function SendOutput(hasChannel: bool, submitResult: int): (r: int)
    ensures !hasChannel ==> r == -1
    ensures hasChannel ==> r == submitResult
  {
    if !hasChannel then -1 else submitResult
  }

  /**
   * `send_output_msg`: -1 for a NULL channel, NULL data, zero length or no
   * free output buffer; otherwise the data is copied into the buffer and the
   * result of submitting it is returned.
   */
  function SendOutputMsg(hasChannel: bool, hasData: bool, dataLen: nat, reserveOk: bool, submitResult: int): (r: int)
    ensures !hasChannel || !hasData || dataLen == 0 || !reserveOk ==> r == -1
    ensures hasChannel && hasData && dataLen > 0 && reserveOk ==> r == submitResult
  {
    if !hasChannel then -1
    else if !hasData then -1
    else if dataLen == 0 then -1
    else if !reserveOk then -1
    else submitResult
  }

  // ---- CPU affinity (src/router/jrtc_router.c:474-498) ----

  /** Bit `i` of the mask is set. */
  predicate HasCpu(mask: bv64, i: nat)
  {
    i < 64 && Meets(mask, Bit(i))
  }

  /** The CPUs among the first `i + 1` bits are those among the first `i` and possibly CPU `i`. */
  lemma CpuSetStep(mask: bv64, i: nat)
    requires i < 64
    ensures (set j: nat | j < i + 1 && HasCpu(mask, j))
         == (set j: nat | j < i && HasCpu(mask, j)) + (if HasCpu(mask, i) then {i} else {})
  {}

  /** The CPUs named by a 64-bit mask: CPU `i` iff bit `i` is set. */
  function CpuSet(mask: bv64): set<nat>
  {
    set i: nat | i < 64 && HasCpu(mask, i)
  }

  lemma CpuSetEmpty()
    ensures CpuSet(0) == {}
  {}

  /** ORing masks unites their CPU sets. */
  lemma CpuSetUnion(a: bv64, b: bv64)
    ensures CpuSet(a | b) == CpuSet(a) + CpuSet(b)
  {
    forall i: nat | i < 64
      ensures HasCpu(a | b, i) <==> HasCpu(a, i) || HasCpu(b, i)
    {
      OrMeets(a, b, Bit(i));
    }
  }

  lemma OrMeets(a: bv64, b: bv64, x: bv64)
    ensures Meets(a | b, x) <==> Meets(a, x) || Meets(b, x)
  {
    OrAnd(a, b, x);
    OrZero(a & x, b & x);
  }

  lemma OrAnd(a: bv64, b: bv64, x: bv64)
    ensures (a | b) & x == (a & x) | (b & x)
  {}

  lemma OrZero(y: bv64, z: bv64)
    ensures y | z != 0 <==> y != 0 || z != 0
  {}

  /** The mask with only bit `k` set names only CPU `k`. */
  lemma CpuSetSingle(k: nat)
    requires k < 64
    ensures CpuSet(Bit(k)) == {k}
  {
    forall i: nat | i < 64
      ensures HasCpu(Bit(k), i) <==> i == k
    {
      BitMeets(k, i);
    }
  }

  /** Two single-bit masks meet iff they are the same bit. */
  lemma BitMeets(k: nat, i: nat)
    requires k < 64 && i < 64
    ensures Meets(Bit(k), Bit(i)) <==> i == k
  {
    if i < k {
      BitDisjoint(i, k);
      AndSwap(Bit(i), Bit(k));
    } else if k < i {
      BitDisjoint(k, i);
    } else {
      BitNonZero(k);
      AndSelf(Bit(k));
    }
  }

  lemma AndSwap(x: bv64, y: bv64)
    ensures x & y == y & x
  {}

  lemma AndSelf(x: bv64)
    ensures x & x == x
  {}

  /**
   * `set_cpu_affinity`: -1 for a NULL router context; otherwise the CPU set
   * built from the mask is applied to the router thread (`applyOk` is
   * whether `pthread_setaffinity_np` succeeds), and the result is 0 or -1.
   */
  method SetCpuAffinity(ctx: RouterCtx?, mask: bv64, applyOk: bool) returns (res: int, cpus: set<nat>)
    ensures ctx == null ==> res == -1 && cpus == {}
    ensures ctx != null ==> cpus == CpuSet(mask) && res == (if applyOk then 0 else -1)
  {
    if ctx == null {
      return -1, {};
    }
    cpus := {};
    for i := 0 to 64
      invariant cpus == set j: nat | j < i && HasCpu(mask, j)
    {
      var bit := Bit(i);  // `(uint64_t)1 << i`, by BitIsShift
      CpuSetStep(mask, i);
      if Meets(mask, bit) {
        cpus := cpus + {i};
      }
    }
    assert cpus == CpuSet(mask);
    res := if applyOk then 0 else -1;
  }

  // ---- the router context ----

  class RouterCtx {
    /** `app_metadata.app_bitmap`: which app ids are reserved. */
    const appBitmap: array<bool>
    /** `app_metadata.ctx`: the registered apps, by id (the non-NULL slots). */
    var apps: map<nat, App>
    /** `req_table.reqs`. */
    var reqs: RequestTable

    ghost predicate Valid()
      reads this, appBitmap
    {
      appBitmap.Length == MAX_NUM_APPS
      && (forall a :: a in apps ==>
            a < MAX_NUM_APPS && appBitmap[a] && apps[a].appId == a && |apps[a].ring| <= apps[a].queueSize)
      && TableOk(reqs)
    }

    /** A router with no app ids reserved, no apps and no requests. */
    constructor ()
      ensures Valid() && fresh(appBitmap)
      ensures forall i :: 0 <= i < MAX_NUM_APPS ==> !appBitmap[i]
      ensures apps == map[] && reqs == map[]
    {
      appBitmap := new bool[MAX_NUM_APPS](_ => false);
      apps := map[];
      reqs := map[];
    }

    /**
     * `_jrtc_router_reserve_new_app`: tests and sets the bits in order and
     * returns the first that was clear, or -1 when all 128 are taken.
     */
    method ReserveNewApp() returns (id: int)
      requires Valid()
      modifies appBitmap
      ensures Valid()
      ensures id == FirstClear(old(appBitmap[..]))
      ensures appBitmap[..] == if id < 0 then old(appBitmap[..]) else old(appBitmap[..])[id := true]
    {
      for i := 0 to appBitmap.Length
        invariant appBitmap[..] == old(appBitmap[..])
        invariant forall j :: 0 <= j < i ==> appBitmap[j]
      {
        var wasSet := appBitmap[i];
        appBitmap[i] := true;
        if !wasSet {
          return i;
        }
        assert appBitmap[..] == old(appBitmap[..]);
      }
      return -1;
    }

    /** `_jrtc_router_release_app`: clears the id's bit and no other. */
    method ReleaseApp(id: nat)
      requires Valid() && id < MAX_NUM_APPS && id !in apps
      modifies appBitmap
      ensures Valid()
      ensures appBitmap[..] == old(appBitmap[..])[id := false]
    {
      appBitmap[id] := false;
    }

    /**
     * `jrtc_router_register_app`: rejects a queue size above 10000, then
     * reserves an id; `allocOk` is whether the context, ring, entry pool and
     * both channel tables are all allocated. Any failure after the
     * reservation releases the id. On success the app, with an empty ring of
     * `round_up_pow_of_two(queue size + 1)` slots, is stored under its id.
     */
    method RegisterApp(queueSize: nat, allocOk: bool) returns (app: Option<nat>)
      requires Valid()
      modifies this, appBitmap
      ensures Valid() && reqs == old(reqs)
      ensures app.Some? <==> queueSize <= MAX_APP_QUEUE_SIZE && FirstClear(old(appBitmap[..])) >= 0 && allocOk
      ensures app.Some? ==> app.value == FirstClear(old(appBitmap[..]))
                            && apps == old(apps)[app.value := App(app.value, queueSize, RoundUpPowOfTwo((queueSize + 1) as bv32), [])]
                            && appBitmap[..] == old(appBitmap[..])[app.value := true]
      ensures app.None? ==> apps == old(apps) && appBitmap[..] == old(appBitmap[..])
    {
      if queueSize > MAX_APP_QUEUE_SIZE {
        return None;
      }
      var id := ReserveNewApp();
      if id < 0 {
        return None;
      }
      if !allocOk {
        ReleaseApp(id);
        assert old(appBitmap[..])[id := true][id := false] == old(appBitmap[..]);
        return None;
      }
      apps := apps[id := App(id, queueSize, RoundUpPowOfTwo((queueSize + 1) as bv32), [])];
      return Some(id);
    }

    /**
     * `jrtc_router_deregister_app`: nothing for a NULL app; otherwise the app
     * leaves the registry and its id is released. Its requests stay in the
     * table.
     */
    method DeregisterApp(app: Option<nat>)
      requires Valid() && (app.Some? ==> app.value in apps)
      modifies this, appBitmap
      ensures Valid() && reqs == old(reqs)
      ensures app.None? ==> apps == old(apps) && appBitmap[..] == old(appBitmap[..])
      ensures app.Some? ==> apps == old(apps) - {app.value} && appBitmap[..] == old(appBitmap[..])[app.value := false]
    {
      if app.None? {
        return;
      }
      apps := apps - {app.value};
      ReleaseApp(app.value);
    }

    /**
     * `jrtc_router_channel_register_stream_id_req`: -1 for a NULL app or an
     * id outside [0, 128). Otherwise, for a key not yet in the table,
     * `insertOk` is whether the entry and its bitmap are allocated and the
     * insert succeeds (on failure -1 and the table is unchanged); for a
     * present key the app joins its set. The result is then 1.
     */
    method RegisterStreamIdReq(app: Option<int>, sid: StreamId, insertOk: bool) returns (res: int)
      requires Valid()
      modifies this
      ensures Valid() && apps == old(apps)
      ensures res == 1 <==> app.Some? && 0 <= app.value < MAX_NUM_APPS && (sid in old(reqs) || insertOk)
      ensures res == 1 ==> reqs == Registered(old(reqs), sid, app.value)
      ensures res != 1 ==> res == -1 && reqs == old(reqs)
    {
      if app.None? || app.value < 0 || app.value >= MAX_NUM_APPS {
        return -1;
      }
      var id := app.value;
      if sid !in reqs {
        if !insertOk {
          return -1;
        }
        reqs := reqs[sid := {id}];
        assert AppsAt(old(reqs), sid) + {id} == {id};
      } else {
        reqs := reqs[sid := reqs[sid] + {id}];
      }
      UpdatesKeepTableOk(old(reqs), sid, id);
      return 1;
    }

    /**
     * `jrtc_router_channel_deregister_stream_id_req`: nothing for a NULL app,
     * an id outside [0, 128) or an absent key; otherwise the app leaves the
     * key's set and an emptied entry is removed.
     */
    method DeregisterStreamIdReq(app: Option<int>, sid: StreamId)
      requires Valid()
      modifies this
      ensures Valid() && apps == old(apps)
      ensures app.Some? && 0 <= app.value < MAX_NUM_APPS ==> reqs == Deregistered(old(reqs), sid, app.value)
      ensures !(app.Some? && 0 <= app.value < MAX_NUM_APPS) ==> reqs == old(reqs)
    {
      if app.None? || app.value < 0 || app.value >= MAX_NUM_APPS {
        return;
      }
      var id := app.value;
      if sid !in reqs {
        return;
      }
      var rest := reqs[sid] - {id};
      if rest == {} {
        reqs := reqs - {sid};
      } else {
        reqs := reqs[sid := rest];
      }
      UpdatesKeepTableOk(old(reqs), sid, id);
    }

    /** `lookup_res`: the union of the app sets under the 16 probe keys of `sid`. */
    method LookupRecipients(sid: StreamId) returns (lookupRes: set<nat>)
      ensures lookupRes == Recipients(reqs, sid)
    {
      lookupRes := {};
      for i := 0 to NUM_REQ_LOOKUPS
        invariant lookupRes == Probe(reqs, sid, LOOKUP_MASKS[..i])
      {
        var key := LookupKey(sid, LOOKUP_MASKS[i]);
        if key in reqs {
          lookupRes := lookupRes + reqs[key];
        }
        assert LOOKUP_MASKS[..i + 1][..i] == LOOKUP_MASKS[..i];
      }
      assert LOOKUP_MASKS[..NUM_REQ_LOOKUPS] == LOOKUP_MASKS;
    }

    /**
     * One step of the app iterator's walk, offering entry `e`: from position
     * `it` to the end of the bitmap, each recipient with a registered
     * context and a free pool entry gets `e` appended to its ring. Returns
     * the iterator's final position.
     */
    method Offer(rcpts: set<nat>, e: DataEntry, it: nat) returns (itEnd: nat)
      requires Valid() && it <= MAX_NUM_APPS
      modifies this
      ensures Valid() && reqs == old(reqs) && itEnd == MAX_NUM_APPS
      ensures apps == DeliveredBetween(old(apps), rcpts, e, it, MAX_NUM_APPS)
    {
      var ctxs := apps;
      itEnd := it;
      while itEnd < MAX_NUM_APPS
        invariant it <= itEnd <= MAX_NUM_APPS
        invariant ctxs.Keys == apps.Keys
        invariant forall a :: a in ctxs ==> ctxs[a] == Enqueue(apps[a], it <= a < itEnd && a in rcpts, e)
      {
        if itEnd in rcpts && itEnd in ctxs {
          var app := ctxs[itEnd];
          if |app.ring| < app.queueSize {
            ctxs := ctxs[itEnd := app.(ring := app.ring + [e])];
          }
        }
        itEnd := itEnd + 1;
      }
      assert ctxs == DeliveredBetween(apps, rcpts, e, it, MAX_NUM_APPS);
      apps := ctxs;
    }

    /**
     * `_jrtc_router_forward_msgs` as written: nothing for a NULL channel or
     * an empty batch. Otherwise the recipients are looked up, and the app
     * iterator is initialised once, before the loop over the buffers: the
     * first buffer walks it to the end, so only the first buffer is offered
     * to the recipients. Every buffer is released.
     */
    method ForwardMsgs(hasChannel: bool, sid: StreamId, bufs: seq<nat>) returns (released: seq<nat>)
      requires Valid()
      modifies this
      ensures Valid() && reqs == old(reqs)
      ensures !hasChannel || bufs == [] ==> released == [] && apps == old(apps)
      ensures hasChannel && bufs != [] ==>
                released == bufs && apps == Delivered(old(apps), Recipients(old(reqs), sid), DataEntry(bufs[0], sid))
    {
      released := [];
      if !hasChannel || bufs == [] {
        return;
      }
      var lookupRes := LookupRecipients(sid);
      var it := 0;
      for i := 0 to |bufs|
        invariant Valid() && reqs == old(reqs)
        invariant released == bufs[..i]
        invariant i == 0 ==> it == 0 && apps == old(apps)
        invariant i > 0 ==> it == MAX_NUM_APPS && apps == Delivered(old(apps), lookupRes, DataEntry(bufs[0], sid))
      {
        ghost var before := apps;
        it := Offer(lookupRes, DataEntry(bufs[i], sid), it);
        DeliveredBetweenEnds(before, lookupRes, DataEntry(bufs[i], sid));
        released := released + [bufs[i]];
      }
    }

    /**
     * The evident intent of `_jrtc_router_forward_msgs`: the iterator
     * restarts for each buffer, so every buffer of the batch is offered, in
     * order, to every recipient.
     */
    method ForwardMsgsIntended(hasChannel: bool, sid: StreamId, bufs: seq<nat>) returns (released: seq<nat>)
      requires Valid()
      modifies this
      ensures Valid() && reqs == old(reqs)
      ensures !hasChannel ==> released == [] && apps == old(apps)
      ensures hasChannel ==> released == bufs && apps == DeliveredAll(old(apps), Recipients(old(reqs), sid), bufs, sid)
    {
      released := [];
      if !hasChannel {
        return;
      }
      var lookupRes := LookupRecipients(sid);
      for i := 0 to |bufs|
        invariant Valid() && reqs == old(reqs)
        invariant released == bufs[..i]
        invariant apps == DeliveredAll(old(apps), lookupRes, bufs[..i], sid)
      {
        ghost var before := apps;
        var _ := Offer(lookupRes, DataEntry(bufs[i], sid), 0);
        DeliveredBetweenEnds(before, lookupRes, DataEntry(bufs[i], sid));
        assert bufs[..i + 1][..i] == bufs[..i];
        released := released + [bufs[i]];
      }
      assert bufs[..|bufs|] == bufs;
    }

    /** The first loop of `receive`: dequeues up to `n` entries from the app's ring, oldest first. */
    method DequeueRing(appId: nat, n: nat) returns (entries: seq<DataEntry>)
      requires Valid() && appId in apps
      modifies this
      ensures Valid() && reqs == old(reqs)
      ensures var ring := old(apps[appId].ring);
              entries == ring[..Min(n, |ring|)]
              && apps == old(apps)[appId := old(apps[appId]).(ring := ring[Min(n, |ring|)..])]
    {
      var ring := apps[appId].ring;
      entries := [];
      while |entries| < n && ring != []
        invariant |entries| <= n && |entries| <= |old(apps[appId].ring)|
        invariant entries == old(apps[appId].ring)[..|entries|]
        invariant ring == old(apps[appId].ring)[|entries|..]
      {
        entries := entries + [ring[0]];
        ring := ring[1..];
      }
      apps := apps[appId := apps[appId].(ring := ring)];
    }

    /**
     * `jrtc_router_receive`: first dequeues up to `numEntries` ring entries,
     * oldest first; then, while entries are still wanted, reads the app's
     * input channels in order.
     */
    method Receive(appId: nat, numEntries: nat, channels: seq<InChannel>) returns (entries: seq<DataEntry>)
      requires Valid() && appId in apps
      modifies this
      ensures Valid() && reqs == old(reqs)
      ensures var ring := old(apps[appId].ring);
              var k := Min(numEntries, |ring|);
              entries == ring[..k] + ChannelTake(channels, numEntries - k)
              && apps == old(apps)[appId := old(apps[appId]).(ring := ring[k..])]
    {
      entries := DequeueRing(appId, numEntries);
      var fromChannels := ReadChannels(channels, numEntries - |entries|);
      entries := entries + fromChannels;
    }
  }

  /**
   * The second loop of `receive`: while entries are still wanted, reads each
   * input channel in turn, asking for at most `DATA_BATCH_SIZE` and at most
   * what is still wanted, and tags what it gets with the channel's stream id.
   */
  method ReadChannels(channels: seq<InChannel>, room: nat) returns (entries: seq<DataEntry>)
    ensures entries == ChannelTake(channels, room)
  {
    entries := [];
    var c := 0;
    while |entries| < room && c < |channels|
      invariant c <= |channels| && |entries| <= room
      invariant entries + ChannelTake(channels[c..], room - |entries|) == ChannelTake(channels, room)
    {
      var pending := room - |entries|;
      var nreqs := Min(DATA_BATCH_SIZE, pending);
      var got := channels[c].pending[..Min(nreqs, |channels[c].pending|)];
      ChannelTakeFrom(channels, c, pending);
      var tagged := Tagged(got, channels[c].streamId);
      assert entries + (tagged + ChannelTake(channels[c + 1..], pending - |got|))
          == (entries + tagged) + ChannelTake(channels[c + 1..], pending - |got|);
      entries := entries + tagged;
      c := c + 1;
    }
    if c == |channels| {
      assert channels[c..] == [];
    }
  }
}
