/**
 * The 128-bit stream identifier of the router and its field macros
 * (src/stream_id/jrtc_router_stream_id.h).
 *
 * Bit 0 is the most significant bit of byte 0. The five fields are packed
 * big-endian, in this order:
 *   version      6 bits  byte 0 [7:2]
 *   fwd_dst      7 bits  byte 0 [1:0], byte 1 [7:3]
 *   device_id    7 bits  byte 1 [2:0], byte 2 [7:4]
 *   stream_path 54 bits  byte 2 [3:0], bytes 3..8, byte 9 [7:6]
 *   stream_name 54 bits  byte 9 [5:0], bytes 10..15
 * Bytes are unsigned here; `GetStreamPathSignedChar` and
 * `GetStreamNameSignedChar` show what the getter macros compute when `char`
 * is signed.
 */
module StreamIdCodec {
  /** A stream id: the 16 bytes of `jrtc_router_stream_id_t.id`. */
  datatype StreamId = StreamId(b0: bv8, b1: bv8, b2: bv8, b3: bv8, b4: bv8, b5: bv8, b6: bv8, b7: bv8,
                               b8: bv8, b9: bv8, b10: bv8, b11: bv8, b12: bv8, b13: bv8, b14: bv8, b15: bv8)

  const ZERO := StreamId(0, 0, 0, 0, 0, 0, 0, 0, 0, 0, 0, 0, 0, 0, 0, 0)
  const ALL_ONES := StreamId(0xFF, 0xFF, 0xFF, 0xFF, 0xFF, 0xFF, 0xFF, 0xFF,
                             0xFF, 0xFF, 0xFF, 0xFF, 0xFF, 0xFF, 0xFF, 0xFF)

  const HASH_NUMBER_BITS: nat := 54
  const NUM_HASH_FUNCTIONS: nat := 38
  const STREAM_ID_VERSION: bv64 := 0
  const CONTROLLER_DEVICE_ID: bv64 := 0

  const DEST_NONE: bv64 := 0x1
  const DEST_UDP: bv64 := 0x2
  const DEST_RESERVED: bv64 := 0x4
  const DEST_RESERVED2: bv64 := 0x8
  const DEST_RESERVED3: bv64 := 0x10
  const DEST_RESERVED4: bv64 := 0x20
  const DEST_ANY: bv64 := 0x7F
  const DEVICE_ID_ANY: bv64 := 0x7F
  const STREAM_PATH_ANY: bv64 := 0x3F_FFFF_FFFF_FFFF
  const STREAM_NAME_ANY: bv64 := 0x3F_FFFF_FFFF_FFFF

  datatype Field = Version | FwdDst | DeviceId | StreamPath | StreamName

  /** All ones in the field's width (6, 7, 7, 54 and 54 bits). */
  function ValueMask(f: Field): bv64
  {
    match f
    case Version => 0x3F
    case FwdDst => 0x7F
    case DeviceId => 0x7F
    case StreamPath => 0x3F_FFFF_FFFF_FFFF
    case StreamName => 0x3F_FFFF_FFFF_FFFF
  }

  /** The wildcard value of a field: the `*_ANY` constant (the version has none, so all ones). */
  function AnyValue(f: Field): (v: bv64)
    ensures v == ValueMask(f)
  {
    match f
    case Version => 0x3F
    case FwdDst => DEST_ANY
    case DeviceId => DEVICE_ID_ANY
    case StreamPath => STREAM_PATH_ANY
    case StreamName => STREAM_NAME_ANY
  }

  // ---- getter macros ----

  function GetVer(id: StreamId): (v: bv64)
    ensures v & 0x3F == v
  {
    ((id.b0 >> 2) & 0x3F) as bv64
  }

  function GetFwdDst(id: StreamId): (v: bv64)
    ensures v & 0x7F == v
  {
    (((id.b0 & 0x03) as bv64) << 5) | ((id.b1 >> 3) & 0x1F) as bv64
  }

  function GetDeviceId(id: StreamId): (v: bv64)
    ensures v & 0x7F == v
  {
    (((id.b1 & 0x07) as bv64) << 4) | ((id.b2 >> 4) & 0x0F) as bv64
  }

  /** The stream-path field as read from bytes 2..9 by the getter macro. */
  function PathOf(b2: bv8, b3: bv8, b4: bv8, b5: bv8, b6: bv8, b7: bv8, b8: bv8, b9: bv8): bv64
  {
    ((b2 as bv64 & 0x0F) << 50) | (b3 as bv64 << 42) | (b4 as bv64 << 34) | (b5 as bv64 << 26)
    | (b6 as bv64 << 18) | (b7 as bv64 << 10) | (b8 as bv64 << 2) | ((b9 as bv64 & 0xC0) >> 6)
  }

  function GetStreamPath(id: StreamId): (v: bv64)
    ensures v & 0x3F_FFFF_FFFF_FFFF == v
  {
    PathOf(id.b2, id.b3, id.b4, id.b5, id.b6, id.b7, id.b8, id.b9)
  }

  /** The stream-name field as read from bytes 9..15 by the getter macro. */
  function NameOf(b9: bv8, b10: bv8, b11: bv8, b12: bv8, b13: bv8, b14: bv8, b15: bv8): bv64
  {
    ((b9 as bv64 & 0x3F) << 48) | (b10 as bv64 << 40) | (b11 as bv64 << 32) | (b12 as bv64 << 24)
    | (b13 as bv64 << 16) | (b14 as bv64 << 8) | b15 as bv64
  }

  function GetStreamName(id: StreamId): (v: bv64)
    ensures v & 0x3F_FFFF_FFFF_FFFF == v
  {
    NameOf(id.b9, id.b10, id.b11, id.b12, id.b13, id.b14, id.b15)
  }

  /** The five fields of an id, each as the unsigned value of its bits. */
  datatype Fields = Fields(ver: bv64, fwd: bv64, dev: bv64, path: bv64, name: bv64)
  {
    /** Every field fits its width. */
    predicate InRange()
    {
      ver & 0x3F == ver && fwd & 0x7F == fwd && dev & 0x7F == dev
      && path & 0x3F_FFFF_FFFF_FFFF == path && name & 0x3F_FFFF_FFFF_FFFF == name
    }

    /** Each field cut to its width, as the set macros store it. */
    function Truncated(): Fields
    {
      Fields(ver & 0x3F, fwd & 0x7F, dev & 0x7F, path & 0x3F_FFFF_FFFF_FFFF, name & 0x3F_FFFF_FFFF_FFFF)
    }
  }

  /** All five fields of an id, read with the getter macros. */
  function Decode(id: StreamId): (fs: Fields)
    ensures fs.InRange()
  {
    Fields(GetVer(id), GetFwdDst(id), GetDeviceId(id), GetStreamPath(id), GetStreamName(id))
  }

  /**
   * The reference packing of five field values into an id: each value cut to
   * its field's width and laid out at the field's bit position.
   */
  function Pack(ver: bv64, fwd: bv64, dev: bv64, path: bv64, name: bv64): StreamId
  {
    StreamId(((ver << 2) & 0xFF) as bv8 | ((fwd & 0x7F) >> 5) as bv8,
             ((fwd & 0x1F) << 3) as bv8 | ((dev >> 4) & 0x07) as bv8,
             ((dev & 0x0F) << 4) as bv8 | ((path >> 50) & 0x0F) as bv8,
             ((path >> 42) & 0xFF) as bv8,
             ((path >> 34) & 0xFF) as bv8,
             ((path >> 26) & 0xFF) as bv8,
             ((path >> 18) & 0xFF) as bv8,
             ((path >> 10) & 0xFF) as bv8,
             ((path >> 2) & 0xFF) as bv8,
             ((path & 0x03) << 6) as bv8 | ((name >> 48) & 0x3F) as bv8,
             ((name >> 40) & 0xFF) as bv8,
             ((name >> 32) & 0xFF) as bv8,
             ((name >> 24) & 0xFF) as bv8,
             ((name >> 16) & 0xFF) as bv8,
             ((name >> 8) & 0xFF) as bv8,
             (name & 0xFF) as bv8)
  }

  function Encode(fs: Fields): (id: StreamId)
    ensures id == Pack(fs.ver & 0x3F, fs.fwd & 0x7F, fs.dev & 0x7F, fs.path & 0x3F_FFFF_FFFF_FFFF, fs.name & 0x3F_FFFF_FFFF_FFFF)
  {
    Pack(fs.ver, fs.fwd, fs.dev, fs.path, fs.name)
  }

  // Packing keeps each field, cut to its width: no two fields overlap.
  lemma PackVer(ver: bv64, fwd: bv64, dev: bv64, path: bv64, name: bv64)
    ensures GetVer(Pack(ver, fwd, dev, path, name)) == ver & 0x3F
  {}

  lemma PackFwdDst(ver: bv64, fwd: bv64, dev: bv64, path: bv64, name: bv64)
    ensures GetFwdDst(Pack(ver, fwd, dev, path, name)) == fwd & 0x7F
  {}

  lemma PackDeviceId(ver: bv64, fwd: bv64, dev: bv64, path: bv64, name: bv64)
    ensures GetDeviceId(Pack(ver, fwd, dev, path, name)) == dev & 0x7F
  {}

  lemma PackStreamPath(ver: bv64, fwd: bv64, dev: bv64, path: bv64, name: bv64)
    ensures GetStreamPath(Pack(ver, fwd, dev, path, name)) == path & 0x3F_FFFF_FFFF_FFFF
  {}

  lemma PackStreamName(ver: bv64, fwd: bv64, dev: bv64, path: bv64, name: bv64)
    ensures GetStreamName(Pack(ver, fwd, dev, path, name)) == name & 0x3F_FFFF_FFFF_FFFF
  {}

  /** No two fields overlap: encoding keeps every field, cut to its width. */
  lemma DecodePack(ver: bv64, fwd: bv64, dev: bv64, path: bv64, name: bv64)
    ensures Decode(Pack(ver, fwd, dev, path, name))
         == Fields(ver, fwd, dev, path, name).Truncated()
  {
    PackVer(ver, fwd, dev, path, name);
    PackFwdDst(ver, fwd, dev, path, name);
    PackDeviceId(ver, fwd, dev, path, name);
    PackStreamPath(ver, fwd, dev, path, name);
    PackStreamName(ver, fwd, dev, path, name);
  }

  /** No two fields overlap: encoding keeps every field, cut to its width. */
  lemma DecodeEncode(fs: Fields)
    ensures Decode(Encode(fs)) == fs.Truncated()
  {
    DecodePack(fs.ver, fs.fwd, fs.dev, fs.path, fs.name);
  }

  /** The five fields cover all 128 bits: encoding the fields read from an id gives back that id. */
  lemma EncodeDecode(id: StreamId)
    ensures Encode(Decode(id)) == id
  {
    PackGetters(id);
  }

  lemma PackGetters(id: StreamId)
    ensures Pack(GetVer(id), GetFwdDst(id), GetDeviceId(id), GetStreamPath(id), GetStreamName(id)) == id
  {}

  /** Hence an id is determined by its five fields. */
  lemma FieldsDetermineId(a: StreamId, b: StreamId)
    requires Decode(a) == Decode(b)
    ensures a == b
  {
    EncodeDecode(a);
    EncodeDecode(b);
  }

  /** Fields that already fit their widths are unchanged by truncation. */
  lemma TruncatedInRange(fs: Fields)
    requires fs.InRange()
    ensures fs.Truncated() == fs
  {}

  // ---- set macros (src/stream_id/jrtc_router_stream_id.h:143-170) ----

  function SetVer(id: StreamId, ver: bv64): (r: StreamId)
    ensures r.(b0 := id.b0) == id && r.b0 & 0x03 == id.b0 & 0x03
  {
    id.(b0 := ((ver << 2) & 0xFF) as bv8 | (id.b0 & 0x03))
  }

  function SetFwdDst(id: StreamId, fwd: bv64): (r: StreamId)
    ensures r.(b0 := id.b0, b1 := id.b1) == id && r.b0 & 0xFC == id.b0 & 0xFC && r.b1 & 0x07 == id.b1 & 0x07
  {
    id.(b0 := (id.b0 & 0xFC) | ((fwd & 0x7F) >> 5) as bv8,
        b1 := ((fwd & 0x1F) << 3) as bv8 | (id.b1 & 0x07))
  }

  function SetDeviceId(id: StreamId, dev: bv64): (r: StreamId)
    ensures r.(b1 := id.b1, b2 := id.b2) == id && r.b1 & 0xF8 == id.b1 & 0xF8 && r.b2 & 0x0F == id.b2 & 0x0F
  {
    id.(b1 := (id.b1 & 0xF8) | ((dev >> 4) & 0x07) as bv8,
        b2 := ((dev & 0x0F) << 4) as bv8 | (id.b2 & 0x0F))
  }

  function SetStreamPath(id: StreamId, path: bv64): (r: StreamId)
    ensures r.(b2 := id.b2, b3 := id.b3, b4 := id.b4, b5 := id.b5, b6 := id.b6, b7 := id.b7, b8 := id.b8, b9 := id.b9) == id
    ensures r.b2 & 0xF0 == id.b2 & 0xF0 && r.b9 & 0x3F == id.b9 & 0x3F
  {
    id.(b2 := (id.b2 & 0xF0) | ((path >> 50) & 0x0F) as bv8,
        b3 := ((path >> 42) & 0xFF) as bv8,
        b4 := ((path >> 34) & 0xFF) as bv8,
        b5 := ((path >> 26) & 0xFF) as bv8,
        b6 := ((path >> 18) & 0xFF) as bv8,
        b7 := ((path >> 10) & 0xFF) as bv8,
        b8 := ((path >> 2) & 0xFF) as bv8,
        b9 := ((path & 0x03) << 6) as bv8 | (id.b9 & 0x3F))
  }

  function SetStreamName(id: StreamId, name: bv64): (r: StreamId)
    ensures r.(b9 := id.b9, b10 := id.b10, b11 := id.b11, b12 := id.b12, b13 := id.b13, b14 := id.b14, b15 := id.b15) == id
    ensures r.b9 & 0xC0 == id.b9 & 0xC0
  {
    id.(b9 := (id.b9 & 0xC0) | ((name >> 48) & 0x3F) as bv8,
        b10 := ((name >> 40) & 0xFF) as bv8,
        b11 := ((name >> 32) & 0xFF) as bv8,
        b12 := ((name >> 24) & 0xFF) as bv8,
        b13 := ((name >> 16) & 0xFF) as bv8,
        b14 := ((name >> 8) & 0xFF) as bv8,
        b15 := (name & 0xFF) as bv8)
  }

  // ---- which bits each getter reads ----
  // Each field is read from exactly its own bits, so ids that agree on those
  // bits agree on the field.

  lemma VerBits(a: StreamId, b: StreamId)
    requires a.b0 & 0xFC == b.b0 & 0xFC
    ensures GetVer(a) == GetVer(b)
  {}

  lemma FwdDstBits(a: StreamId, b: StreamId)
    requires a.b0 & 0x03 == b.b0 & 0x03 && a.b1 & 0xF8 == b.b1 & 0xF8
    ensures GetFwdDst(a) == GetFwdDst(b)
  {}

  lemma DeviceIdBits(a: StreamId, b: StreamId)
    requires a.b1 & 0x07 == b.b1 & 0x07 && a.b2 & 0xF0 == b.b2 & 0xF0
    ensures GetDeviceId(a) == GetDeviceId(b)
  {}

  lemma StreamPathBits(a: StreamId, b: StreamId)
    requires a.b2 & 0x0F == b.b2 & 0x0F && a.b3 == b.b3 && a.b4 == b.b4 && a.b5 == b.b5
    requires a.b6 == b.b6 && a.b7 == b.b7 && a.b8 == b.b8 && a.b9 & 0xC0 == b.b9 & 0xC0
    ensures GetStreamPath(a) == GetStreamPath(b)
  {}

  lemma StreamNameBits(a: StreamId, b: StreamId)
    requires a.b9 & 0x3F == b.b9 & 0x3F && a.b10 == b.b10 && a.b11 == b.b11 && a.b12 == b.b12
    requires a.b13 == b.b13 && a.b14 == b.b14 && a.b15 == b.b15
    ensures GetStreamName(a) == GetStreamName(b)
  {}

  // ---- each set macro writes its own field ... ----

  lemma GetSetVer(id: StreamId, v: bv64)
    ensures GetVer(SetVer(id, v)) == v & 0x3F
  {}
  lemma GetSetFwdDst(id: StreamId, v: bv64)
    ensures GetFwdDst(SetFwdDst(id, v)) == v & 0x7F
  {}
  lemma GetSetDeviceId(id: StreamId, v: bv64)
    ensures GetDeviceId(SetDeviceId(id, v)) == v & 0x7F
  {}
  lemma GetSetStreamPath(id: StreamId, v: bv64)
    ensures GetStreamPath(SetStreamPath(id, v)) == v & 0x3F_FFFF_FFFF_FFFF
  {}
  lemma GetSetStreamName(id: StreamId, v: bv64)
    ensures GetStreamName(SetStreamName(id, v)) == v & 0x3F_FFFF_FFFF_FFFF
  {}

  // ---- ... and leaves the bits of the other four untouched ----

  lemma SetVerFields(id: StreamId, v: bv64)
    ensures Decode(SetVer(id, v)) == Decode(id).(ver := v & 0x3F)
  {
    var r := SetVer(id, v);
    GetSetVer(id, v);
    FwdDstBits(r, id);
    DeviceIdBits(r, id);
    StreamPathBits(r, id);
    StreamNameBits(r, id);
  }

  lemma SetFwdDstFields(id: StreamId, v: bv64)
    ensures Decode(SetFwdDst(id, v)) == Decode(id).(fwd := v & 0x7F)
  {
    var r := SetFwdDst(id, v);
    GetSetFwdDst(id, v);
    VerBits(r, id);
    DeviceIdBits(r, id);
    StreamPathBits(r, id);
    StreamNameBits(r, id);
  }

  lemma SetDeviceIdFields(id: StreamId, v: bv64)
    ensures Decode(SetDeviceId(id, v)) == Decode(id).(dev := v & 0x7F)
  {
    var r := SetDeviceId(id, v);
    GetSetDeviceId(id, v);
    VerBits(r, id);
    FwdDstBits(r, id);
    StreamPathBits(r, id);
    StreamNameBits(r, id);
  }

  lemma SetStreamPathFields(id: StreamId, v: bv64)
    ensures Decode(SetStreamPath(id, v)) == Decode(id).(path := v & 0x3F_FFFF_FFFF_FFFF)
  {
    var r := SetStreamPath(id, v);
    GetSetStreamPath(id, v);
    VerBits(r, id);
    FwdDstBits(r, id);
    DeviceIdBits(r, id);
    StreamNameBits(r, id);
  }

  lemma SetStreamNameFields(id: StreamId, v: bv64)
    ensures Decode(SetStreamName(id, v)) == Decode(id).(name := v & 0x3F_FFFF_FFFF_FFFF)
  {
    var r := SetStreamName(id, v);
    GetSetStreamName(id, v);
    VerBits(r, id);
    FwdDstBits(r, id);
    DeviceIdBits(r, id);
    StreamPathBits(r, id);
  }

  /** The five set macros in sequence, as `jrtc_router_generate_stream_id` runs them. */
  function SetAll(id: StreamId, fs: Fields): StreamId
  {
    SetStreamName(SetStreamPath(SetDeviceId(SetFwdDst(SetVer(id, fs.ver), fs.fwd), fs.dev), fs.path), fs.name)
  }

  // The bytes two neighbouring set macros share end up holding only the new bits.
  lemma SharedByte0(ver: bv64, fwd: bv64, x: bv8)
    ensures ((((ver << 2) & 0xFF) as bv8 | (x & 0x03)) & 0xFC) | ((fwd & 0x7F) >> 5) as bv8
         == ((ver << 2) & 0xFF) as bv8 | ((fwd & 0x7F) >> 5) as bv8
  {}

  lemma SharedByte1(fwd: bv64, dev: bv64, x: bv8)
    ensures ((((fwd & 0x1F) << 3) as bv8 | (x & 0x07)) & 0xF8) | ((dev >> 4) & 0x07) as bv8
         == ((fwd & 0x1F) << 3) as bv8 | ((dev >> 4) & 0x07) as bv8
  {}

  lemma SharedByte2(dev: bv64, path: bv64, x: bv8)
    ensures ((((dev & 0x0F) << 4) as bv8 | (x & 0x0F)) & 0xF0) | ((path >> 50) & 0x0F) as bv8
         == ((dev & 0x0F) << 4) as bv8 | ((path >> 50) & 0x0F) as bv8
  {}

  lemma SharedByte9(path: bv64, name: bv64, x: bv8)
    ensures ((((path & 0x03) << 6) as bv8 | (x & 0x3F)) & 0xC0) | ((name >> 48) & 0x3F) as bv8
         == ((path & 0x03) << 6) as bv8 | ((name >> 48) & 0x3F) as bv8
  {}

  /**
   * Running all five set macros overwrites every bit: whatever the id held
   * before, the result is the packed id of the fields, each cut to width.
   */
  lemma SetAllEncodes(id: StreamId, fs: Fields)
    ensures SetAll(id, fs) == Encode(fs)
  {
    SharedByte0(fs.ver, fs.fwd, id.b0);
    SharedByte1(fs.fwd, fs.dev, id.b1);
    SharedByte2(fs.dev, fs.path, id.b2);
    SharedByte9(fs.path, fs.name, id.b9);
  }

  /** After the five set macros every field holds its new value, cut to width. */
  lemma SetAllFields(id: StreamId, fs: Fields)
    ensures Decode(SetAll(id, fs)) == fs.Truncated()
  {
    SetAllEncodes(id, fs);
    DecodeEncode(fs);
  }

  // ---- apply-mask macros (src/stream_id/jrtc_router_stream_id.h:114-141) ----
  // Each ORs the value, cut to the field's width, into the field's bits.

  function ApplyVer(id: StreamId, ver: bv64): (r: StreamId)
    ensures r.(b0 := id.b0) == id && ByteSubset(id, r)
  {
    id.(b0 := id.b0 | ((ver << 2) & 0xFF) as bv8)
  }

  function ApplyFwdDst(id: StreamId, fwd: bv64): (r: StreamId)
    ensures r.(b0 := id.b0, b1 := id.b1) == id && ByteSubset(id, r)
  {
    id.(b0 := id.b0 | ((fwd & 0x7F) >> 5) as bv8,
        b1 := id.b1 | ((fwd & 0x1F) << 3) as bv8)
  }

  function ApplyDeviceId(id: StreamId, dev: bv64): (r: StreamId)
    ensures r.(b1 := id.b1, b2 := id.b2) == id && ByteSubset(id, r)
  {
    id.(b1 := id.b1 | ((dev >> 4) & 0x07) as bv8,
        b2 := id.b2 | ((dev & 0x0F) << 4) as bv8)
  }

  function ApplyStreamPath(id: StreamId, path: bv64): (r: StreamId)
    ensures r.(b2 := id.b2, b3 := id.b3, b4 := id.b4, b5 := id.b5, b6 := id.b6, b7 := id.b7, b8 := id.b8, b9 := id.b9) == id
    ensures ByteSubset(id, r)
  {
    id.(b2 := id.b2 | ((path >> 50) & 0x0F) as bv8,
        b3 := id.b3 | ((path >> 42) & 0xFF) as bv8,
        b4 := id.b4 | ((path >> 34) & 0xFF) as bv8,
        b5 := id.b5 | ((path >> 26) & 0xFF) as bv8,
        b6 := id.b6 | ((path >> 18) & 0xFF) as bv8,
        b7 := id.b7 | ((path >> 10) & 0xFF) as bv8,
        b8 := id.b8 | ((path >> 2) & 0xFF) as bv8,
        b9 := id.b9 | ((path & 0x03) << 6) as bv8)
  }

  function ApplyStreamName(id: StreamId, name: bv64): (r: StreamId)
    ensures r.(b9 := id.b9, b10 := id.b10, b11 := id.b11, b12 := id.b12, b13 := id.b13, b14 := id.b14, b15 := id.b15) == id
    ensures ByteSubset(id, r)
  {
    id.(b9 := id.b9 | ((name >> 48) & 0x3F) as bv8,
        b10 := id.b10 | ((name >> 40) & 0xFF) as bv8,
        b11 := id.b11 | ((name >> 32) & 0xFF) as bv8,
        b12 := id.b12 | ((name >> 24) & 0xFF) as bv8,
        b13 := id.b13 | ((name >> 16) & 0xFF) as bv8,
        b14 := id.b14 | ((name >> 8) & 0xFF) as bv8,
        b15 := id.b15 | (name & 0xFF) as bv8)
  }

  // ---- each apply macro is the set macro of the field ORed with the value ----

  lemma ApplyVerIsSet(id: StreamId, v: bv64)
    ensures ApplyVer(id, v) == SetVer(id, GetVer(id) | v)
  {}
  lemma ApplyFwdDstIsSet(id: StreamId, v: bv64)
    ensures ApplyFwdDst(id, v) == SetFwdDst(id, GetFwdDst(id) | v)
  {}
  lemma ApplyDeviceIdIsSet(id: StreamId, v: bv64)
    ensures ApplyDeviceId(id, v) == SetDeviceId(id, GetDeviceId(id) | v)
  {}
  lemma ApplyStreamPathIsSet(id: StreamId, v: bv64)
    ensures ApplyStreamPath(id, v) == SetStreamPath(id, GetStreamPath(id) | v)
  {}
  lemma ApplyStreamNameIsSet(id: StreamId, v: bv64)
    ensures ApplyStreamName(id, v) == SetStreamName(id, GetStreamName(id) | v)
  {}

  // ---- so each apply macro ORs into its own field and leaves the other four alone ----

  lemma ApplyVerFields(id: StreamId, v: bv64)
    ensures Decode(ApplyVer(id, v)) == Decode(id).(ver := (GetVer(id) | v) & 0x3F)
  {
    ApplyVerIsSet(id, v);
    SetVerFields(id, GetVer(id) | v);
  }

  lemma ApplyFwdDstFields(id: StreamId, v: bv64)
    ensures Decode(ApplyFwdDst(id, v)) == Decode(id).(fwd := (GetFwdDst(id) | v) & 0x7F)
  {
    ApplyFwdDstIsSet(id, v);
    SetFwdDstFields(id, GetFwdDst(id) | v);
  }

  lemma ApplyDeviceIdFields(id: StreamId, v: bv64)
    ensures Decode(ApplyDeviceId(id, v)) == Decode(id).(dev := (GetDeviceId(id) | v) & 0x7F)
  {
    ApplyDeviceIdIsSet(id, v);
    SetDeviceIdFields(id, GetDeviceId(id) | v);
  }

  lemma ApplyStreamPathFields(id: StreamId, v: bv64)
    ensures Decode(ApplyStreamPath(id, v))
         == Decode(id).(path := (GetStreamPath(id) | v) & 0x3F_FFFF_FFFF_FFFF)
  {
    ApplyStreamPathIsSet(id, v);
    SetStreamPathFields(id, GetStreamPath(id) | v);
  }

  lemma ApplyStreamNameFields(id: StreamId, v: bv64)
    ensures Decode(ApplyStreamName(id, v))
         == Decode(id).(name := (GetStreamName(id) | v) & 0x3F_FFFF_FFFF_FFFF)
  {
    ApplyStreamNameIsSet(id, v);
    SetStreamNameFields(id, GetStreamName(id) | v);
  }

  // ---- applying 0 changes nothing; applying the wildcard is setting it ----

  lemma ApplyZero(id: StreamId)
    ensures ApplyVer(id, 0) == id && ApplyFwdDst(id, 0) == id && ApplyDeviceId(id, 0) == id
    ensures ApplyStreamPath(id, 0) == id && ApplyStreamName(id, 0) == id
  {}

  lemma ApplyAnyVer(id: StreamId)
    ensures ApplyVer(id, 0x3F) == SetVer(id, 0x3F)
  {}
  lemma ApplyAnyFwdDst(id: StreamId)
    ensures ApplyFwdDst(id, DEST_ANY) == SetFwdDst(id, DEST_ANY)
  {}
  lemma ApplyAnyDeviceId(id: StreamId)
    ensures ApplyDeviceId(id, DEVICE_ID_ANY) == SetDeviceId(id, DEVICE_ID_ANY)
  {}
  lemma ApplyAnyStreamPath(id: StreamId)
    ensures ApplyStreamPath(id, STREAM_PATH_ANY) == SetStreamPath(id, STREAM_PATH_ANY)
  {}
  lemma ApplyAnyStreamName(id: StreamId)
    ensures ApplyStreamName(id, STREAM_NAME_ANY) == SetStreamName(id, STREAM_NAME_ANY)
  {}

  // ---- matching a stream id against a request (src/stream_id/jrtc_router_stream_id.h:313-323) ----

  /** Four bytes read as one little-endian 32-bit word, as the `int *` cast reads them on x86-64. */
  function Word(a: bv8, b: bv8, c: bv8, d: bv8): bv32
  {
    a as bv32 | (b as bv32 << 8) | (c as bv32 << 16) | (d as bv32 << 24)
  }

  /** Every bit set in word `s` is set in word `r`. */
  predicate WordIn(s: bv32, r: bv32)
  {
    s & r == s
  }

  /** Every bit set in byte `x` is set in byte `y`. */
  predicate ByteIn(x: bv8, y: bv8)
  {
    x & y == x
  }

  /**
   * `sid` matches the request `req`: for each of the four words, in order,
   * `sid`'s bits are among `req`'s; the first word that fails returns false.
   */
  predicate MatchesReq(sid: StreamId, req: StreamId): (r: bool)
    ensures sid == req ==> r
    ensures req == ALL_ONES ==> r
  {
    WordIn(Word(sid.b0, sid.b1, sid.b2, sid.b3), Word(req.b0, req.b1, req.b2, req.b3))
    && WordIn(Word(sid.b4, sid.b5, sid.b6, sid.b7), Word(req.b4, req.b5, req.b6, req.b7))
    && WordIn(Word(sid.b8, sid.b9, sid.b10, sid.b11), Word(req.b8, req.b9, req.b10, req.b11))
    && WordIn(Word(sid.b12, sid.b13, sid.b14, sid.b15), Word(req.b12, req.b13, req.b14, req.b15))
  }

  /** The reference meaning of matching: byte by byte, `sid`'s bits are among `req`'s. */
  predicate ByteSubset(sid: StreamId, req: StreamId)
  {
    ByteIn(sid.b0, req.b0) && ByteIn(sid.b1, req.b1) && ByteIn(sid.b2, req.b2) && ByteIn(sid.b3, req.b3)
    && ByteIn(sid.b4, req.b4) && ByteIn(sid.b5, req.b5) && ByteIn(sid.b6, req.b6) && ByteIn(sid.b7, req.b7)
    && ByteIn(sid.b8, req.b8) && ByteIn(sid.b9, req.b9) && ByteIn(sid.b10, req.b10)
    && ByteIn(sid.b11, req.b11) && ByteIn(sid.b12, req.b12) && ByteIn(sid.b13, req.b13)
    && ByteIn(sid.b14, req.b14) && ByteIn(sid.b15, req.b15)
  }

  /** ANDing two words ANDs their bytes. */
  lemma WordAnd(a0: bv8, a1: bv8, a2: bv8, a3: bv8, c0: bv8, c1: bv8, c2: bv8, c3: bv8)
    ensures Word(a0, a1, a2, a3) & Word(c0, c1, c2, c3) == Word(a0 & c0, a1 & c1, a2 & c2, a3 & c3)
  {}

  /** Distinct byte quadruples give distinct words. */
  lemma WordInjective(a0: bv8, a1: bv8, a2: bv8, a3: bv8, c0: bv8, c1: bv8, c2: bv8, c3: bv8)
    requires Word(a0, a1, a2, a3) == Word(c0, c1, c2, c3)
    ensures a0 == c0 && a1 == c1 && a2 == c2 && a3 == c3
  {}

  /** A word is a subset of another iff each of its four bytes is. */
  lemma WordInBytes(a0: bv8, a1: bv8, a2: bv8, a3: bv8, c0: bv8, c1: bv8, c2: bv8, c3: bv8)
    ensures WordIn(Word(a0, a1, a2, a3), Word(c0, c1, c2, c3))
        <==> (ByteIn(a0, c0) && ByteIn(a1, c1) && ByteIn(a2, c2) && ByteIn(a3, c3))
  {
    WordAnd(a0, a1, a2, a3, c0, c1, c2, c3);
    if Word(a0 & c0, a1 & c1, a2 & c2, a3 & c3) == Word(a0, a1, a2, a3) {
      WordInjective(a0 & c0, a1 & c1, a2 & c2, a3 & c3, a0, a1, a2, a3);
    }
  }

  /** Matching by 32-bit words is exactly the byte-wise subset test. */
  lemma MatchesReqIsByteSubset(sid: StreamId, req: StreamId)
    ensures MatchesReq(sid, req) <==> ByteSubset(sid, req)
  {
    WordInBytes(sid.b0, sid.b1, sid.b2, sid.b3, req.b0, req.b1, req.b2, req.b3);
    WordInBytes(sid.b4, sid.b5, sid.b6, sid.b7, req.b4, req.b5, req.b6, req.b7);
    WordInBytes(sid.b8, sid.b9, sid.b10, sid.b11, req.b8, req.b9, req.b10, req.b11);
    WordInBytes(sid.b12, sid.b13, sid.b14, sid.b15, req.b12, req.b13, req.b14, req.b15);
  }

  lemma ByteInTransitive(x: bv8, y: bv8, z: bv8)
    requires ByteIn(x, y) && ByteIn(y, z)
    ensures ByteIn(x, z)
  {}

  lemma ByteInAntisymmetric(x: bv8, y: bv8)
    requires ByteIn(x, y) && ByteIn(y, x)
    ensures x == y
  {}

  lemma MatchesReqReflexive(sid: StreamId)
    ensures MatchesReq(sid, sid)
  {
    MatchesReqIsByteSubset(sid, sid);
  }

  lemma MatchesReqTransitive(a: StreamId, b: StreamId, c: StreamId)
    requires MatchesReq(a, b) && MatchesReq(b, c)
    ensures MatchesReq(a, c)
  {
    MatchesReqIsByteSubset(a, b);
    MatchesReqIsByteSubset(b, c);
    MatchesReqIsByteSubset(a, c);
    ByteInTransitive(a.b0, b.b0, c.b0); ByteInTransitive(a.b1, b.b1, c.b1);
    ByteInTransitive(a.b2, b.b2, c.b2); ByteInTransitive(a.b3, b.b3, c.b3);
    ByteInTransitive(a.b4, b.b4, c.b4); ByteInTransitive(a.b5, b.b5, c.b5);
    ByteInTransitive(a.b6, b.b6, c.b6); ByteInTransitive(a.b7, b.b7, c.b7);
    ByteInTransitive(a.b8, b.b8, c.b8); ByteInTransitive(a.b9, b.b9, c.b9);
    ByteInTransitive(a.b10, b.b10, c.b10); ByteInTransitive(a.b11, b.b11, c.b11);
    ByteInTransitive(a.b12, b.b12, c.b12); ByteInTransitive(a.b13, b.b13, c.b13);
    ByteInTransitive(a.b14, b.b14, c.b14); ByteInTransitive(a.b15, b.b15, c.b15);
  }

  /** Two ids that match each other are equal. */
  lemma MatchesReqAntisymmetric(a: StreamId, b: StreamId)
    requires MatchesReq(a, b) && MatchesReq(b, a)
    ensures a == b
  {
    MatchesReqIsByteSubset(a, b);
    MatchesReqIsByteSubset(b, a);
    ByteInAntisymmetric(a.b0, b.b0); ByteInAntisymmetric(a.b1, b.b1);
    ByteInAntisymmetric(a.b2, b.b2); ByteInAntisymmetric(a.b3, b.b3);
    ByteInAntisymmetric(a.b4, b.b4); ByteInAntisymmetric(a.b5, b.b5);
    ByteInAntisymmetric(a.b6, b.b6); ByteInAntisymmetric(a.b7, b.b7);
    ByteInAntisymmetric(a.b8, b.b8); ByteInAntisymmetric(a.b9, b.b9);
    ByteInAntisymmetric(a.b10, b.b10); ByteInAntisymmetric(a.b11, b.b11);
    ByteInAntisymmetric(a.b12, b.b12); ByteInAntisymmetric(a.b13, b.b13);
    ByteInAntisymmetric(a.b14, b.b14); ByteInAntisymmetric(a.b15, b.b15);
  }

  /** The all-ones request accepts every id. */
  lemma MatchesAllOnes(sid: StreamId)
    ensures MatchesReq(sid, ALL_ONES)
  {
    MatchesReqIsByteSubset(sid, ALL_ONES);
  }

  // A request whose field holds the wildcard accepts every value of that field:
  // an id matches the request that agrees with it elsewhere.

  lemma WildcardFwdDst(id: StreamId, v: bv64)
    ensures MatchesReq(SetFwdDst(id, v), SetFwdDst(id, DEST_ANY))
  {
    MatchesReqIsByteSubset(SetFwdDst(id, v), SetFwdDst(id, DEST_ANY));
  }

  lemma WildcardDeviceId(id: StreamId, v: bv64)
    ensures MatchesReq(SetDeviceId(id, v), SetDeviceId(id, DEVICE_ID_ANY))
  {
    MatchesReqIsByteSubset(SetDeviceId(id, v), SetDeviceId(id, DEVICE_ID_ANY));
  }

  lemma WildcardStreamPath(id: StreamId, v: bv64)
    ensures MatchesReq(SetStreamPath(id, v), SetStreamPath(id, STREAM_PATH_ANY))
  {
    MatchesReqIsByteSubset(SetStreamPath(id, v), SetStreamPath(id, STREAM_PATH_ANY));
  }

  lemma WildcardStreamName(id: StreamId, v: bv64)
    ensures MatchesReq(SetStreamName(id, v), SetStreamName(id, STREAM_NAME_ANY))
  {
    MatchesReqIsByteSubset(SetStreamName(id, v), SetStreamName(id, STREAM_NAME_ANY));
  }

  /** Matching is not symmetric: an id matches a wildcard request, not the other way round. */
  lemma MatchesReqNotSymmetric()
    ensures var sid := Pack(0, DEST_UDP, 3, 5, 7);
            var req := SetStreamName(sid, STREAM_NAME_ANY);
            MatchesReq(sid, req) && !MatchesReq(req, sid)
  {
    var sid := Pack(0, DEST_UDP, 3, 5, 7);
    var req := SetStreamName(sid, STREAM_NAME_ANY);
    MatchesReqIsByteSubset(sid, req);
    MatchesReqIsByteSubset(req, sid);
  }

  // ---- the path and name getters on a platform where `char` is signed ----
  // The id is a `char[16]`; the path and name getter macros widen bytes 3..8
  // and 10..15 to 64 bits without masking, so on x86-64 a byte of 0x80 or more
  // is sign-extended and its copies of bit 7 spill over the higher bits.

  /** A `char` byte converted to a 64-bit unsigned integer when `char` is signed. */
  function SignExtend(b: bv8): (r: bv64)
    ensures b < 0x80 ==> r == b as bv64
  {
    if b & 0x80 == 0 then b as bv64 else b as bv64 | 0xFFFF_FFFF_FFFF_FF00
  }

  /** Masking a sign-extended byte with a mask of its own eight bits sees only the byte. */
  lemma SignExtendMasked(b: bv8, m: bv64)
    requires m & 0xFF == m
    ensures SignExtend(b) & m == b as bv64 & m
  {
  }

  /**
   * The stream-path getter macro as it computes with signed bytes: the
   * field itself as long as none of the whole bytes 3-8 has its top bit set.
   */
  function GetStreamPathSignedChar(id: StreamId): (v: bv64)
    ensures id.b3 < 0x80 && id.b4 < 0x80 && id.b5 < 0x80 && id.b6 < 0x80 && id.b7 < 0x80 && id.b8 < 0x80 ==>
      v == GetStreamPath(id)
  {
    SignExtendMasked(id.b2, 0x0F);
    SignExtendMasked(id.b9, 0xC0);
    ((SignExtend(id.b2) & 0x0F) << 50) | (SignExtend(id.b3) << 42) | (SignExtend(id.b4) << 34)
    | (SignExtend(id.b5) << 26) | (SignExtend(id.b6) << 18) | (SignExtend(id.b7) << 10)
    | (SignExtend(id.b8) << 2) | ((SignExtend(id.b9) & 0xC0) >> 6)
  }

  /**
   * The stream-name getter macro as it computes with signed bytes: the
   * field itself as long as none of the whole bytes 10-15 has its top bit set.
   */
  function GetStreamNameSignedChar(id: StreamId): (v: bv64)
    ensures id.b10 < 0x80 && id.b11 < 0x80 && id.b12 < 0x80 && id.b13 < 0x80 && id.b14 < 0x80 && id.b15 < 0x80 ==>
      v == GetStreamName(id)
  {
    SignExtendMasked(id.b9, 0x3F);
    ((SignExtend(id.b9) & 0x3F) << 48) | (SignExtend(id.b10) << 40) | (SignExtend(id.b11) << 32)
    | (SignExtend(id.b12) << 24) | (SignExtend(id.b13) << 16) | (SignExtend(id.b14) << 8)
    | SignExtend(id.b15)
  }

  /**
   * With byte 4 = 0x97 (as in the id 00101e30-97b1-... used by the Go tests)
   * the signed reading of the path is not below 2^54 and differs from the
   * field's value.
   */
  lemma StreamPathSignedCharDiffers()
    ensures var id := ZERO.(b4 := 0x97);
            GetStreamPathSignedChar(id) != GetStreamPath(id)
            && GetStreamPathSignedChar(id) & 0x3F_FFFF_FFFF_FFFF != GetStreamPathSignedChar(id)
  {}

  /** With byte 15 = 0x80 the signed reading of the name sets all its upper bits. */
  lemma StreamNameSignedCharDiffers()
    ensures var id := ZERO.(b15 := 0x80);
            GetStreamNameSignedChar(id) != GetStreamName(id)
            && GetStreamNameSignedChar(id) & 0x3F_FFFF_FFFF_FFFF != GetStreamNameSignedChar(id)
  {}
}
