/**
 * The decoder command (tools/jrtc-ctl/cmd/decoder/run/run.go): the key under
 * which a stream's schema association is stored, the lookup chain that
 * decodes one received datagram, and the loop that consumes the decoder's
 * and the UDP server's queues.
 */
module DecoderRun {
  import opened Wrappers
  import opened StreamIdCodec
  import opened StreamIdText
  import opened GoStreamId
  import opened CacheStore
  import opened DecoderServer

  // ---- the association key (run.go:85-98) ----

  const ASSOCIATION_PREFIX := "streamToSchema/"

  /** The fields the association key ignores. */
  const KEY_FORMAT := FormatConfig(true, true, true, false, false)

  /**
   * The error of `StreamIDFromBytes` on a slice that is not 16 bytes long,
   * as an abstract text: the uuid library's message also gives the length.
   */
  const INVALID_UUID := "invalid UUID"

  /**
   * The key transformer of the association store: the id with version,
   * forwarding destination and device id cleared, in canonical text, after
   * "streamToSchema/".
   */
  function AssociationKey(bs: seq<bv8>): (r: Result<string>)
    ensures r.Err? <==> |bs| != 16
    ensures r.Ok? ==> |r.value| == |ASSOCIATION_PREFIX| + 36 && r.value[..|ASSOCIATION_PREFIX|] == ASSOCIATION_PREFIX
  {
    if |bs| != 16 then Err(INVALID_UUID)
    else Ok(ASSOCIATION_PREFIX + UuidText(Format(FromBytes(bs), KEY_FORMAT)))
  }

  /** Two ids share an association key exactly when their stream path and stream name agree. */
  lemma AssociationKeySharedIff(a: StreamId, b: StreamId)
    ensures AssociationKey(Bytes(a)) == AssociationKey(Bytes(b)) <==>
      GetStreamPath(a) == GetStreamPath(b) && GetStreamName(a) == GetStreamName(b)
  {
    FromBytesBytes(a);
    FromBytesBytes(b);
    var fa, fb := Format(a, KEY_FORMAT), Format(b, KEY_FORMAT);
    FormatFields(a, KEY_FORMAT);
    FormatFields(b, KEY_FORMAT);
    if AssociationKey(Bytes(a)) == AssociationKey(Bytes(b)) {
      var ka, kb := AssociationKey(Bytes(a)).value, AssociationKey(Bytes(b)).value;
      assert UuidText(fa) == ka[|ASSOCIATION_PREFIX|..];
      assert UuidText(fb) == kb[|ASSOCIATION_PREFIX|..];
      UuidTextInjective(fa, fb);
    }
    if GetStreamPath(a) == GetStreamPath(b) && GetStreamName(a) == GetStreamName(b) {
      FieldsDetermineId(fa, fb);
    }
  }

  /** Hence ids that differ only in version, destination or device id share one association. */
  lemma AssociationIgnoresClearedFields(a: StreamId, ver: bv64, fwd: bv64, dev: bv64)
    ensures AssociationKey(Bytes(SetDeviceId(SetFwdDst(SetVer(a, ver), fwd), dev))) == AssociationKey(Bytes(a))
  {
    var b := SetDeviceId(SetFwdDst(SetVer(a, ver), fwd), dev);
    SetVerFields(a, ver);
    SetFwdDstFields(SetVer(a, ver), fwd);
    SetDeviceIdFields(SetFwdDst(SetVer(a, ver), fwd), dev);
    AssociationKeySharedIff(a, b);
  }

  // ---- attemptDecode (run.go:165-228) ----

  /** `RecData`: a datagram's payload and the stream id it arrived with. */
  datatype RecData = RecData(payload: seq<bv8>, streamUuid: StreamId)

  /**
   * Everything after the two lookups: reading the descriptor set, finding
   * the message, decoding the payload and printing it as JSON. The protobuf
   * library is not part of this model, so this is a parameter.
   */
  type Decoder = (seq<bv8>, string, seq<bv8>) -> Result<seq<bv8>>

  function NoSchemaForStream(id: StreamId): string
  {
    "no schema found for stream UUID " + UuidText(id)
  }

  function NoSchemaForPackage(pkg: string): string
  {
    "no schema found for proto package " + pkg
  }

  /**
   * The lookup chain over the tiers of the two stores: the association of the
   * datagram's stream, then the package it names, then the decoder.
   */
  function DecodeDatagram(enabled: bool, keyOf: seq<bv8> -> Result<string>, schemas: Tiers<RecordedProtoDescriptor>,
                          assocs: Tiers<Association>, data: RecData, decode: Decoder,
                          f1: Option<string>, f2: Option<string>): (r: (Result<seq<bv8>>, Tiers<RecordedProtoDescriptor>, Tiers<Association>))
    ensures r.1.remote == schemas.remote && r.2.remote == assocs.remote
    ensures keyOf(Bytes(data.streamUuid)).Err? ==> r == (Err(keyOf(Bytes(data.streamUuid)).error), schemas, assocs)
    ensures !enabled && keyOf(Bytes(data.streamUuid)).Ok? && keyOf(Bytes(data.streamUuid)).value !in assocs.mem ==>
      r.0 == Err(NoSchemaForStream(data.streamUuid))
  {
    var (schema, assocs1) := GetKey(keyOf, enabled, assocs, Bytes(data.streamUuid), f1);
    if schema.Err? then (Err(schema.error), schemas, assocs1)
    else if schema.value.None? then (Err(NoSchemaForStream(data.streamUuid)), schemas, assocs1)
    else
      var (sch, schemas1) := GetKey(SchemaKey, enabled, schemas, schema.value.value.protoPackage, f2);
      if sch.Err? then (Err(sch.error), schemas1, assocs1)
      else if sch.value.None? then (Err(NoSchemaForPackage(schema.value.value.protoPackage)), schemas1, assocs1)
      else (decode(sch.value.value.protoDescriptor, schema.value.value.protoMsg, data.payload), schemas1, assocs1)
  }

  /**
   * Decoding a datagram never changes what either store answers: the only
   * change is remote entries cached in memory.
   */
  lemma DecodeOnlyCaches(enabled: bool, keyOf: seq<bv8> -> Result<string>, schemas: Tiers<RecordedProtoDescriptor>,
                         assocs: Tiers<Association>, data: RecData, decode: Decoder, f1: Option<string>, f2: Option<string>)
    ensures Caches(enabled, schemas, DecodeDatagram(enabled, keyOf, schemas, assocs, data, decode, f1, f2).1)
    ensures Caches(enabled, assocs, DecodeDatagram(enabled, keyOf, schemas, assocs, data, decode, f1, f2).2)
  {
    var r := DecodeDatagram(enabled, keyOf, schemas, assocs, data, decode, f1, f2);
    GetKeyCaches(keyOf, enabled, assocs, Bytes(data.streamUuid), f1);
    var schema := GetKey(keyOf, enabled, assocs, Bytes(data.streamUuid), f1);
    assert r.2 == schema.1;
    if schema.0.Ok? && schema.0.value.Some? {
      GetKeyCaches(SchemaKey, enabled, schemas, schema.0.value.value.protoPackage, f2);
      assert r.1 == GetKey(SchemaKey, enabled, schemas, schema.0.value.value.protoPackage, f2).1;
    } else {
      assert r.1 == schemas;
    }
  }

  /**
   * A datagram is decoded exactly when its stream is bound and the bound
   * package is registered, and then with that package's descriptor and the
   * bound message; otherwise the error names what is missing.
   */
  lemma DecodeChain(enabled: bool, keyOf: seq<bv8> -> Result<string>, schemas: Tiers<RecordedProtoDescriptor>,
                    assocs: Tiers<Association>, data: RecData, decode: Decoder)
    ensures var r := DecodeDatagram(enabled, keyOf, schemas, assocs, data, decode, None, None).0;
      var a := GetKey(keyOf, enabled, assocs, Bytes(data.streamUuid), None).0;
      (a == Ok(None) ==> r == Err(NoSchemaForStream(data.streamUuid))) &&
      (a.Ok? && a.value.Some? ==>
        var s := GetKey(SchemaKey, enabled, schemas, a.value.value.protoPackage, None).0;
        (s == Ok(None) ==> r == Err(NoSchemaForPackage(a.value.value.protoPackage))) &&
        (s.Ok? && s.value.Some? ==> r == decode(s.value.value.protoDescriptor, a.value.value.protoMsg, data.payload)))
  {
  }

  /** `attemptDecode`. */
  method AttemptDecode(srv: Server, data: RecData, decode: Decoder, f1: Option<string>, f2: Option<string>)
    returns (r: Result<seq<bv8>>)
    requires srv.Valid()
    modifies srv.schemas, srv.streamToSchema
    ensures (r, srv.schemas.Contents(), srv.streamToSchema.Contents()) ==
      DecodeDatagram(srv.schemas.enabled, srv.streamToSchema.transform, old(srv.schemas.Contents()), old(srv.streamToSchema.Contents()),
                     data, decode, f1, f2)
  {
    var schema := srv.streamToSchema.Get(Bytes(data.streamUuid), f1);
    if schema.Err? {
      return Err(schema.error);
    }
    if schema.value.None? {
      return Err(NoSchemaForStream(data.streamUuid));
    }
    var sch := srv.schemas.Get(schema.value.value.protoPackage, f2);
    if sch.Err? {
      return Err(sch.error);
    }
    if sch.value.None? {
      return Err(NoSchemaForPackage(schema.value.value.protoPackage));
    }
    r := decode(sch.value.value.protoDescriptor, schema.value.value.protoMsg, data.payload);
  }

  // ---- the consumer loop (run.go:110-152) ----

  /** What one `select` of the consumer loop receives. */
  datatype Event = DecoderData | DecoderClosed | UdpData | UdpClosed | Cancelled

  /**
   * Where the loop returns when the `select`s yield `events` in order and the
   * closed-channel branches clear the flags `decoderFlag` and `udpFlag`
   * (`activeServices[decoderFlag]`, `activeServices[udpFlag]`), starting at
   * event `i` with the flags `active`.
   */
  function ExitFrom(events: seq<Event>, i: nat, active: seq<bool>, decoderFlag: nat, udpFlag: nat): (r: Option<nat>)
    requires i <= |events| && |active| == 2 && decoderFlag < 2 && udpFlag < 2
    ensures r.Some? ==> i <= r.value < |events| && !events[r.value].DecoderData? && !events[r.value].UdpData?
    ensures r.Some? ==> forall j :: i <= j < r.value ==> !events[j].Cancelled?
    ensures (exists j :: i <= j < |events| && events[j].Cancelled?) ==> r.Some?
    decreases |events| - i
  {
    if i == |events| then None
    else match events[i]
      case Cancelled => Some(i)
      case DecoderClosed =>
        var a := active[decoderFlag := false];
        if !a[0] && !a[1] then Some(i) else ExitFrom(events, i + 1, a, decoderFlag, udpFlag)
      case UdpClosed =>
        var a := active[udpFlag := false];
        if !a[0] && !a[1] then Some(i) else ExitFrom(events, i + 1, a, decoderFlag, udpFlag)
      case _ => ExitFrom(events, i + 1, active, decoderFlag, udpFlag)
  }

  /** The consumer loop: both closed-channel branches clear `activeServices[0]`. */
  method ConsumeAsWritten(events: seq<Event>) returns (exit: Option<nat>)
    ensures exit == ExitFrom(events, 0, [true, true], 0, 0)
  {
    var activeServices := [true, true];
    var i := 0;
    while i < |events|
      invariant 0 <= i <= |events| && |activeServices| == 2
      invariant ExitFrom(events, 0, [true, true], 0, 0) == ExitFrom(events, i, activeServices, 0, 0)
    {
      match events[i] {
        case Cancelled =>
          return Some(i);
        case DecoderClosed =>
          activeServices := activeServices[0 := false];
          if !activeServices[0] && !activeServices[1] {
            return Some(i);
          }
        case UdpClosed =>
          activeServices := activeServices[0 := false];
          if !activeServices[0] && !activeServices[1] {
            return Some(i);
          }
        case _ =>
      }
      i := i + 1;
    }
    return None;
  }

  /** The consumer loop with the UDP branch clearing its own flag, `activeServices[1]`. */
  method Consume(events: seq<Event>) returns (exit: Option<nat>)
    ensures exit == ExitFrom(events, 0, [true, true], 0, 1)
  {
    var activeServices := [true, true];
    var i := 0;
    while i < |events|
      invariant 0 <= i <= |events| && |activeServices| == 2
      invariant ExitFrom(events, 0, [true, true], 0, 1) == ExitFrom(events, i, activeServices, 0, 1)
    {
      match events[i] {
        case Cancelled =>
          return Some(i);
        case DecoderClosed =>
          activeServices := activeServices[0 := false];
          if !activeServices[0] && !activeServices[1] {
            return Some(i);
          }
        case UdpClosed =>
          activeServices := activeServices[1 := false];
          if !activeServices[0] && !activeServices[1] {
            return Some(i);
          }
        case _ =>
      }
      i := i + 1;
    }
    return None;
  }

  /** As written, the loop returns only at a cancellation: closing both queues never ends it. */
  lemma {:induction false} AsWrittenExitsOnlyOnCancel(events: seq<Event>, i: nat, active: seq<bool>)
    requires i <= |events| && |active| == 2 && active[1]
    ensures var r := ExitFrom(events, i, active, 0, 0);
      r.Some? <==> Cancelled in events[i..]
    ensures var r := ExitFrom(events, i, active, 0, 0);
      r.Some? ==> i <= r.value < |events| && events[r.value] == Cancelled && Cancelled !in events[i..r.value]
    decreases |events| - i
  {
    if i < |events| {
      assert events[i..] == [events[i]] + events[i + 1..];
      match events[i]
      case Cancelled =>
      case DecoderClosed =>
        AsWrittenExitsOnlyOnCancel(events, i + 1, active[0 := false]);
        ExtendNoCancel(events, i, ExitFrom(events, i, active, 0, 0));
      case UdpClosed =>
        AsWrittenExitsOnlyOnCancel(events, i + 1, active[0 := false]);
        ExtendNoCancel(events, i, ExitFrom(events, i, active, 0, 0));
      case _ =>
        AsWrittenExitsOnlyOnCancel(events, i + 1, active);
        ExtendNoCancel(events, i, ExitFrom(events, i, active, 0, 0));
    }
  }

  /** A non-cancelling event in front of a cancel-free stretch keeps it cancel-free. */
  lemma ExtendNoCancel(events: seq<Event>, i: nat, r: Option<nat>)
    requires i < |events| && events[i] != Cancelled
    requires r.Some? ==> i + 1 <= r.value < |events| && Cancelled !in events[i + 1..r.value]
    ensures r.Some? ==> Cancelled !in events[i..r.value]
  {
    if r.Some? {
      assert events[i..r.value] == [events[i]] + events[i + 1..r.value];
    }
  }

  /** Closing both queues: as written the loop keeps running; with each branch clearing its own flag it returns. */
  lemma BothClosedKeepsRunning()
    ensures ExitFrom([DecoderClosed, UdpClosed], 0, [true, true], 0, 0) == None
    ensures ExitFrom([DecoderClosed, UdpClosed], 0, [true, true], 0, 1) == Some(1)
  {
  }

  /** With its own flags the loop returns at the first cancellation or once both queues are closed. */
  lemma {:induction false} ConsumeExits(events: seq<Event>, i: nat, active: seq<bool>)
    requires i <= |events| && |active| == 2 && (active[0] || active[1])
    requires active[0] <==> DecoderClosed !in events[..i]
    requires active[1] <==> UdpClosed !in events[..i]
    ensures var r := ExitFrom(events, i, active, 0, 1);
      r.Some? ==>
        i <= r.value < |events| &&
        (events[r.value] == Cancelled || (DecoderClosed in events[..r.value + 1] && UdpClosed in events[..r.value + 1]))
    ensures var r := ExitFrom(events, i, active, 0, 1);
      r.None? ==> Cancelled !in events[i..] && !(DecoderClosed in events && UdpClosed in events)
    decreases |events| - i
  {
    if i < |events| {
      assert events[..i + 1] == events[..i] + [events[i]];
      assert events[i..] == [events[i]] + events[i + 1..];
      var a := match events[i]
        case DecoderClosed => active[0 := false]
        case UdpClosed => active[1 := false]
        case _ => active;
      if a[0] || a[1] {
        ConsumeExits(events, i + 1, a);
      }
    } else {
      assert events[..i] == events;
    }
  }
}
