/**
 * The Go view of a stream id (tools/jrtc-ctl/jrtcbindings/router_stream_id.go):
 * byte-level getters that read the same bit positions as the C macros,
 * `Format`, which clears chosen fields of the id in place, `Matches`, which
 * defers to the C subset test, and `GenerateStreamID`, which wraps the C
 * generator.
 */
module GoStreamId {
  import opened Wrappers
  import opened StreamIdCodec
  import opened StreamIdGen


  // ---- getters (router_stream_id.go:62-89) ----

  function GoVersion(id: StreamId): bv8
  {
    (id.b0 >> 2) & 0x3F
  }

  function GoForwardingDestination(id: StreamId): bv8
  {
    ((id.b0 & 0x03) << 5) | ((id.b1 >> 3) & 0x1F)
  }

  function GoDeviceId(id: StreamId): bv8
  {
    ((id.b1 & 0x07) << 4) | ((id.b2 >> 4) & 0x0F)
  }

  /** The 54-bit path as 7 big-endian bytes. */
  function GoStreamPath(id: StreamId): (r: seq<bv8>)
    ensures |r| == 7
  {
    [((id.b2 & 0x0F) << 2) | (id.b3 >> 6), (id.b3 << 2) | (id.b4 >> 6), (id.b4 << 2) | (id.b5 >> 6),
     (id.b5 << 2) | (id.b6 >> 6), (id.b6 << 2) | (id.b7 >> 6), (id.b7 << 2) | (id.b8 >> 6),
     (id.b8 << 2) | (id.b9 >> 6)]
  }

  /** The 54-bit name as 7 big-endian bytes. */
  function GoStreamName(id: StreamId): (r: seq<bv8>)
    ensures |r| == 7
  {
    [id.b9 & 0x3F, id.b10, id.b11, id.b12, id.b13, id.b14, id.b15]
  }

  /** Seven bytes read as one big-endian number. */
  function BigEndian7(r: seq<bv8>): bv64
    requires |r| == 7
  {
    (r[0] as bv64 << 48) | (r[1] as bv64 << 40) | (r[2] as bv64 << 32) | (r[3] as bv64 << 24)
    | (r[4] as bv64 << 16) | (r[5] as bv64 << 8) | r[6] as bv64
  }

  /** The Go getters of the three short fields read the bits the C getters read. */
  lemma GoShortFieldsAgree(id: StreamId)
    ensures GoVersion(id) as bv64 == GetVer(id)
    ensures GoForwardingDestination(id) as bv64 == GetFwdDst(id)
    ensures GoDeviceId(id) as bv64 == GetDeviceId(id)
  {}

  /** The Go path bytes spell the C path field, and its first byte holds only 6 bits. */
  lemma GoStreamPathAgrees(id: StreamId)
    ensures BigEndian7(GoStreamPath(id)) == GetStreamPath(id)
    ensures GoStreamPath(id)[0] < 0x40
  {}

  /** The Go name bytes spell the C name field, and its first byte holds only 6 bits. */
  lemma GoStreamNameAgrees(id: StreamId)
    ensures BigEndian7(GoStreamName(id)) == GetStreamName(id)
    ensures GoStreamName(id)[0] < 0x40
  {}

  // ---- Format (router_stream_id.go:91-132) ----

  /** `StreamIDFormatConfig`: which fields `Format` clears. */
  datatype FormatConfig = FormatConfig(clearVersion: bool, clearForwardingDestination: bool,
                                       clearDeviceId: bool, clearStreamPath: bool, clearStreamName: bool)
  {
    /** The fields either configuration clears. */
    function Union(other: FormatConfig): FormatConfig
    {
      FormatConfig(clearVersion || other.clearVersion,
                   clearForwardingDestination || other.clearForwardingDestination,
                   clearDeviceId || other.clearDeviceId,
                   clearStreamPath || other.clearStreamPath,
                   clearStreamName || other.clearStreamName)
    }
  }

  const NO_FLAGS := FormatConfig(false, false, false, false, false)
  const ALL_FLAGS := FormatConfig(true, true, true, true, true)

  // What `Format` leaves in each byte: the bytes two fields share are ANDed
  // once per flag, in the order of the statements; the others are zeroed
  // with their field.

  function Byte0(x: bv8, ver: bool, fwd: bool): (r: bv8)
    ensures ByteIn(r, x)
  {
    var y := if ver then x & 0x03 else x;
    if fwd then y & 0xFC else y
  }

  function Byte1(x: bv8, fwd: bool, dev: bool): (r: bv8)
    ensures ByteIn(r, x)
  {
    var y := if fwd then x & 0x07 else x;
    if dev then y & 0xF8 else y
  }

  function Byte2(x: bv8, dev: bool, path: bool): (r: bv8)
    ensures ByteIn(r, x)
  {
    var y := if dev then x & 0x0F else x;
    if path then y & 0xF0 else y
  }

  function Byte9(x: bv8, path: bool, name: bool): (r: bv8)
    ensures ByteIn(r, x)
  {
    var y := if path then x & 0x3F else x;
    if name then y & 0xC0 else y
  }

  function Zeroed(x: bv8, clear: bool): (r: bv8)
    ensures ByteIn(r, x)
  {
    if clear then 0 else x
  }

  /**
   * `StreamID.Format`: the id with the selected fields cleared. The Go method
   * applies one block of byte updates per flag, in the order version,
   * forwarding destination, device id, stream path, stream name; the bytes
   * here are what those blocks leave behind.
   */
  function Format(id: StreamId, c: FormatConfig): (r: StreamId)
    ensures ByteSubset(r, id)
  {
    var p, n := c.clearStreamPath, c.clearStreamName;
    StreamId(Byte0(id.b0, c.clearVersion, c.clearForwardingDestination),
             Byte1(id.b1, c.clearForwardingDestination, c.clearDeviceId),
             Byte2(id.b2, c.clearDeviceId, p),
             Zeroed(id.b3, p), Zeroed(id.b4, p), Zeroed(id.b5, p), Zeroed(id.b6, p), Zeroed(id.b7, p),
             if p then id.b8 & 0 else id.b8,
             Byte9(id.b9, p, n),
             Zeroed(id.b10, n), Zeroed(id.b11, n), Zeroed(id.b12, n), Zeroed(id.b13, n), Zeroed(id.b14, n),
             Zeroed(id.b15, n))
  }

  /** A field record with the selected fields set to 0. */
  function ClearedFields(fs: Fields, c: FormatConfig): Fields
  {
    Fields(if c.clearVersion then 0 else fs.ver,
           if c.clearForwardingDestination then 0 else fs.fwd,
           if c.clearDeviceId then 0 else fs.dev,
           if c.clearStreamPath then 0 else fs.path,
           if c.clearStreamName then 0 else fs.name)
  }

  // In each shared byte, the bits of one field survive unless that field's flag is set.

  lemma Byte0Parts(x: bv8, ver: bool, fwd: bool)
    ensures Byte0(x, ver, fwd) & 0xFC == if ver then 0 else x & 0xFC
    ensures Byte0(x, ver, fwd) & 0x03 == if fwd then 0 else x & 0x03
  {}

  lemma Byte1Parts(x: bv8, fwd: bool, dev: bool)
    ensures Byte1(x, fwd, dev) & 0xF8 == if fwd then 0 else x & 0xF8
    ensures Byte1(x, fwd, dev) & 0x07 == if dev then 0 else x & 0x07
  {}

  lemma Byte2Parts(x: bv8, dev: bool, path: bool)
    ensures Byte2(x, dev, path) & 0xF0 == if dev then 0 else x & 0xF0
    ensures Byte2(x, dev, path) & 0x0F == if path then 0 else x & 0x0F
  {}

  lemma Byte9Parts(x: bv8, path: bool, name: bool)
    ensures Byte9(x, path, name) & 0xC0 == if path then 0 else x & 0xC0
    ensures Byte9(x, path, name) & 0x3F == if name then 0 else x & 0x3F
  {}

  lemma FormatVer(id: StreamId, c: FormatConfig)
    ensures GetVer(Format(id, c)) == if c.clearVersion then 0 else GetVer(id)
  {
    var f := Format(id, c);
    Byte0Parts(id.b0, c.clearVersion, c.clearForwardingDestination);
    if c.clearVersion {
      VerBits(f, ZERO);
    } else {
      VerBits(f, id);
    }
  }

  lemma FormatFwdDst(id: StreamId, c: FormatConfig)
    ensures GetFwdDst(Format(id, c)) == if c.clearForwardingDestination then 0 else GetFwdDst(id)
  {
    var f := Format(id, c);
    Byte0Parts(id.b0, c.clearVersion, c.clearForwardingDestination);
    Byte1Parts(id.b1, c.clearForwardingDestination, c.clearDeviceId);
    if c.clearForwardingDestination {
      FwdDstBits(f, ZERO);
    } else {
      FwdDstBits(f, id);
    }
  }

  lemma FormatDeviceId(id: StreamId, c: FormatConfig)
    ensures GetDeviceId(Format(id, c)) == if c.clearDeviceId then 0 else GetDeviceId(id)
  {
    var f := Format(id, c);
    Byte1Parts(id.b1, c.clearForwardingDestination, c.clearDeviceId);
    Byte2Parts(id.b2, c.clearDeviceId, c.clearStreamPath);
    if c.clearDeviceId {
      DeviceIdBits(f, ZERO);
    } else {
      DeviceIdBits(f, id);
    }
  }

  lemma FormatStreamPath(id: StreamId, c: FormatConfig)
    ensures GetStreamPath(Format(id, c)) == if c.clearStreamPath then 0 else GetStreamPath(id)
  {
    var f := Format(id, c);
    Byte2Parts(id.b2, c.clearDeviceId, c.clearStreamPath);
    Byte9Parts(id.b9, c.clearStreamPath, c.clearStreamName);
    if c.clearStreamPath {
      assert id.b8 & 0 == 0;
      StreamPathBits(f, ZERO);
    } else {
      StreamPathBits(f, id);
    }
  }

  lemma FormatStreamName(id: StreamId, c: FormatConfig)
    ensures GetStreamName(Format(id, c)) == if c.clearStreamName then 0 else GetStreamName(id)
  {
    var f := Format(id, c);
    Byte9Parts(id.b9, c.clearStreamPath, c.clearStreamName);
    if c.clearStreamName {
      StreamNameBits(f, ZERO);
    } else {
      StreamNameBits(f, id);
    }
  }

  /**
   * `Format` zeroes exactly the selected fields: every selected field reads
   * 0 afterwards, every other field reads as before.
   */
  lemma FormatFields(id: StreamId, c: FormatConfig)
    ensures Decode(Format(id, c)) == ClearedFields(Decode(id), c)
  {
    FormatVer(id, c);
    FormatFwdDst(id, c);
    FormatDeviceId(id, c);
    FormatStreamPath(id, c);
    FormatStreamName(id, c);
  }

  /** With no flag set `Format` changes nothing. */
  lemma FormatNoFlags(id: StreamId)
    ensures Format(id, NO_FLAGS) == id
  {}

  /** With all five flags `Format` leaves 16 zero bytes: the five fields cover the id. */
  lemma FormatAllFlags(id: StreamId)
    ensures Format(id, ALL_FLAGS) == ZERO
  {
    FormatFields(id, ALL_FLAGS);
    FieldsDetermineId(Format(id, ALL_FLAGS), ZERO);
  }

  /** Clearing fields of a record twice clears those either configuration selects. */
  lemma ClearedTwice(fs: Fields, c1: FormatConfig, c2: FormatConfig)
    ensures ClearedFields(ClearedFields(fs, c1), c2) == ClearedFields(fs, c1.Union(c2))
  {}

  /** Two `Format` calls clear the fields either one selects. */
  lemma FormatTwice(id: StreamId, c1: FormatConfig, c2: FormatConfig)
    ensures Format(Format(id, c1), c2) == Format(id, c1.Union(c2))
  {
    var a, b := Format(Format(id, c1), c2), Format(id, c1.Union(c2));
    FormatFields(id, c1);
    FormatFields(Format(id, c1), c2);
    FormatFields(id, c1.Union(c2));
    ClearedTwice(Decode(id), c1, c2);
    FieldsDetermineId(a, b);
  }

  /** `Format` is idempotent. */
  lemma FormatIdempotent(id: StreamId, c: FormatConfig)
    ensures Format(Format(id, c), c) == Format(id, c)
  {
    FormatTwice(id, c, c);
    assert c.Union(c) == c;
  }

  /** The order of two `Format` calls does not matter. */
  lemma FormatCommutes(id: StreamId, c1: FormatConfig, c2: FormatConfig)
    ensures Format(Format(id, c1), c2) == Format(Format(id, c2), c1)
  {
    FormatTwice(id, c1, c2);
    FormatTwice(id, c2, c1);
    assert c1.Union(c2) == c2.Union(c1);
  }

  // ---- Matches (router_stream_id.go:53-59) ----

  /** `StreamID.Matches`: the C subset test with `s` as the id and `req` as the request; never an error. */
  function Matches(s: StreamId, req: StreamId): (r: (bool, Option<string>))
    ensures r.1 == None
    ensures r.0 <==> ByteSubset(s, req)
  {
    MatchesReqIsByteSubset(s, req);
    (MatchesReq(s, req), None)
  }

  // ---- GenerateStreamID (router_stream_id.go:34-51) ----

  /**
   * `GenerateStreamID`: runs the C generator on a fresh zeroed buffer; any
   * result other than 1 gives an error and the nil (all-zero) id.
   */
  method GenerateStreamID(dest: bv8, deviceId: bv8, path: Option<string>, name: Option<string>,
                          hash: (string, nat) -> nat, pathAllocOk: bool, nameAllocOk: bool)
    returns (id: StreamId, err: Option<string>)
    ensures err.Some? <==> (path.Some? && !pathAllocOk) || (name.Some? && !nameAllocOk)
    ensures err.Some? ==> id == ZERO
    ensures err.None? ==> id == Encode(Fields(STREAM_ID_VERSION, dest as bv64 & 0x7F, deviceId as bv64 & 0x7F,
                                              HashOrAny(hash, path, STREAM_PATH_ANY),
                                              HashOrAny(hash, name, STREAM_NAME_ANY)))
  {
    var buf := new StreamIdBuf(ZERO);
    var rc := GenerateStreamId(buf, dest as bv32, deviceId as bv32, path, name, hash, pathAllocOk, nameAllocOk);
    if rc != 1 {
      return ZERO, Some("Failed to generate stream ID");
    }
    CastMask(dest);
    CastMask(deviceId);
    return buf.id, None;
  }

  /** Widening through 32 bits then masking equals masking the 64-bit value. */
  lemma CastMask(x: bv8)
    ensures (x as bv32 & 0x7F) as bv64 == x as bv64 & 0x7F
  {}

  /**
   * What the Go tests read back from a generated id: version 0, and the
   * destination and device id as given whenever they fit in 7 bits.
   */
  lemma GeneratedGetters(dest: bv8, deviceId: bv8, pathHash: bv64, nameHash: bv64)
    requires dest < 0x80 && deviceId < 0x80
    ensures GoVersion(Encode(Fields(STREAM_ID_VERSION, dest as bv64 & 0x7F, deviceId as bv64 & 0x7F, pathHash, nameHash))) == 0
    ensures GoForwardingDestination(Encode(Fields(STREAM_ID_VERSION, dest as bv64 & 0x7F, deviceId as bv64 & 0x7F, pathHash, nameHash))) == dest
    ensures GoDeviceId(Encode(Fields(STREAM_ID_VERSION, dest as bv64 & 0x7F, deviceId as bv64 & 0x7F, pathHash, nameHash))) == deviceId
  {
    var fs := Fields(STREAM_ID_VERSION, dest as bv64 & 0x7F, deviceId as bv64 & 0x7F, pathHash, nameHash);
    DecodeEncode(fs);
    GoShortFieldsAgree(Encode(fs));
  }
}
