/**
 * The text form of a stream id. The Go bindings print an id through the
 * uuid library, which writes the RFC 4122 (section 3) layout
 * `xxxxxxxx-xxxx-xxxx-xxxx-xxxxxxxxxxxx`: the 16 bytes in order, two
 * lower-case hex digits each, with a hyphen after bytes 4, 6, 8 and 10
 * (tools/jrtc-ctl/jrtcbindings/router_stream_id_helpers.go:18-22).
 */
module StreamIdText {
  import opened Wrappers
  import opened StreamIdCodec

  /** The 16 bytes of an id, in order. */
  function Bytes(id: StreamId): (s: seq<bv8>)
    ensures |s| == 16
  {
    [id.b0, id.b1, id.b2, id.b3, id.b4, id.b5, id.b6, id.b7,
     id.b8, id.b9, id.b10, id.b11, id.b12, id.b13, id.b14, id.b15]
  }

  /** The id held by 16 bytes (`StreamIDFromBytes` on a slice of the right length). */
  function FromBytes(s: seq<bv8>): StreamId
    requires |s| == 16
  {
    StreamId(s[0], s[1], s[2], s[3], s[4], s[5], s[6], s[7],
             s[8], s[9], s[10], s[11], s[12], s[13], s[14], s[15])
  }

  lemma FromBytesBytes(id: StreamId)
    ensures FromBytes(Bytes(id)) == id
  {}

  lemma BytesFromBytes(s: seq<bv8>)
    requires |s| == 16
    ensures Bytes(FromBytes(s)) == s
  {
    assert Bytes(FromBytes(s))[..16] == s[..16];
  }

  // ---- hex digits ----

  /** The lower-case hex digit of a nibble. */
  function HexDigit(n: bv8): (c: char)
    requires n < 16
    ensures '0' <= c <= '9' || 'a' <= c <= 'f'
  {
    if n == 0 then '0' else if n == 1 then '1' else if n == 2 then '2' else if n == 3 then '3'
    else if n == 4 then '4' else if n == 5 then '5' else if n == 6 then '6' else if n == 7 then '7'
    else if n == 8 then '8' else if n == 9 then '9' else if n == 10 then 'a' else if n == 11 then 'b'
    else if n == 12 then 'c' else if n == 13 then 'd' else if n == 14 then 'e' else 'f'
  }

  /** The nibble a hex digit stands for, in either case; `None` for any other character. */
  function HexValue(c: char): (r: Option<bv8>)
    ensures r.Some? ==> r.value < 16
    ensures r.Some? <==> '0' <= c <= '9' || 'a' <= c <= 'f' || 'A' <= c <= 'F'
  {
    if c == '0' then Some(0) else if c == '1' then Some(1) else if c == '2' then Some(2)
    else if c == '3' then Some(3) else if c == '4' then Some(4) else if c == '5' then Some(5)
    else if c == '6' then Some(6) else if c == '7' then Some(7) else if c == '8' then Some(8)
    else if c == '9' then Some(9) else if c == 'a' || c == 'A' then Some(10)
    else if c == 'b' || c == 'B' then Some(11) else if c == 'c' || c == 'C' then Some(12)
    else if c == 'd' || c == 'D' then Some(13) else if c == 'e' || c == 'E' then Some(14)
    else if c == 'f' || c == 'F' then Some(15) else None
  }

  /** Reading back a printed nibble gives the nibble. */
  lemma HexValueDigit(n: bv8)
    requires n < 16
    ensures HexValue(HexDigit(n)) == Some(n)
  {}

  /** A byte as two hex digits, high nibble first. */
  function HexByte(b: bv8): string
  {
    [HexDigit(b >> 4), HexDigit(b & 0x0F)]
  }

  /** Bytes as hex text, two digits per byte. */
  function Hex(bs: seq<bv8>): (s: string)
    ensures |s| == 2 * |bs|
  {
    if bs == [] then "" else HexByte(bs[0]) + Hex(bs[1..])
  }

  /** Hex text back to bytes: `None` for an odd length or a non-hex character. */
  function UnHex(s: string): (r: Option<seq<bv8>>)
    ensures r.Some? ==> 2 * |r.value| == |s|
    decreases |s|
  {
    if s == [] then Some([])
    else if |s| == 1 then None
    else match (HexValue(s[0]), HexValue(s[1]), UnHex(s[2..]))
      case (Some(hi), Some(lo), Some(rest)) => Some([(hi << 4) | lo] + rest)
      case _ => None
  }

  lemma ByteOfNibbles(b: bv8)
    ensures ((b >> 4) << 4) | (b & 0x0F) == b
  {}

  /** Hex text reads back as the bytes it was printed from. */
  lemma {:induction false} UnHexHex(bs: seq<bv8>)
    ensures UnHex(Hex(bs)) == Some(bs)
  {
    if bs != [] {
      var s := Hex(bs);
      assert s[2..] == Hex(bs[1..]);
      HexValueDigit(bs[0] >> 4);
      HexValueDigit(bs[0] & 0x0F);
      ByteOfNibbles(bs[0]);
      UnHexHex(bs[1..]);
      assert [bs[0]] + bs[1..] == bs;
    }
  }

  /** Printing a concatenation prints the parts one after the other. */
  lemma {:induction false} HexAppend(a: seq<bv8>, b: seq<bv8>)
    ensures Hex(a + b) == Hex(a) + Hex(b)
  {
    if a == [] {
      assert a + b == b;
    } else {
      assert (a + b)[0] == a[0];
      assert (a + b)[1..] == a[1..] + b;
      HexAppend(a[1..], b);
      assert Hex(a + b) == HexByte(a[0]) + (Hex(a[1..]) + Hex(b));
    }
  }

  // ---- the 8-4-4-4-12 layout ----

  /** The 32 digits with a hyphen after digits 8, 12, 16 and 20. */
  function Hyphenate(h: string): (s: string)
    requires |h| == 32
    ensures |s| == 36
    ensures s[8] == '-' && s[13] == '-' && s[18] == '-' && s[23] == '-'
  {
    h[..8] + "-" + h[8..12] + "-" + h[12..16] + "-" + h[16..20] + "-" + h[20..]
  }

  /** `StreamID.String`: the canonical text of an id. */
  function UuidText(id: StreamId): (s: string)
    ensures |s| == 36
  {
    Hyphenate(Hex(Bytes(id)))
  }

  /** The digits of canonical text without its four hyphens. */
  function UuidDigits(s: string): string
    requires |s| == 36
  {
    s[..8] + s[9..13] + s[14..18] + s[19..23] + s[24..]
  }

  /**
   * Reads canonical text back into an id: `None` unless the text has 36
   * characters, hyphens at 8, 13, 18 and 23, and hex digits elsewhere.
   */
  function ParseUuid(s: string): (r: Option<StreamId>)
    ensures r.Some? ==> |s| == 36 && s[8] == '-' && s[13] == '-' && s[18] == '-' && s[23] == '-'
  {
    if |s| != 36 || s[8] != '-' || s[13] != '-' || s[18] != '-' || s[23] != '-' then None
    else match UnHex(UuidDigits(s))
      case Some(bs) => Some(FromBytes(bs))
      case None => None
  }

  /** Dropping the four hyphens gives the digits back. */
  lemma UuidDigitsHyphenate(h: string)
    requires |h| == 32
    ensures UuidDigits(Hyphenate(h)) == h
  {
    var s := Hyphenate(h);
    assert s[..8] == h[..8];
    assert s[9..13] == h[8..12];
    assert s[14..18] == h[12..16];
    assert s[19..23] == h[16..20];
    assert s[24..] == h[20..];
    assert h[..8] + h[8..12] + h[12..16] + h[16..20] + h[20..] == h;
  }

  /** Parsing an id's text gives the id back. */
  lemma ParseUuidText(id: StreamId)
    ensures ParseUuid(UuidText(id)) == Some(id)
  {
    UuidDigitsHyphenate(Hex(Bytes(id)));
    UnHexHex(Bytes(id));
    FromBytesBytes(id);
  }

  /** Distinct ids have distinct text. */
  lemma UuidTextInjective(a: StreamId, b: StreamId)
    requires UuidText(a) == UuidText(b)
    ensures a == b
  {
    ParseUuidText(a);
    ParseUuidText(b);
  }

  /** The text with every hyphen removed (`strings.ReplaceAll(s, "-", "")`). */
  function WithoutHyphens(s: string): (r: string)
    ensures '-' !in r
    ensures |r| <= |s|
  {
    if s == [] then ""
    else if s[0] == '-' then WithoutHyphens(s[1..])
    else [s[0]] + WithoutHyphens(s[1..])
  }

  lemma {:induction false} WithoutHyphensAppend(a: string, b: string)
    ensures WithoutHyphens(a + b) == WithoutHyphens(a) + WithoutHyphens(b)
  {
    if a == [] {
      assert a + b == b;
    } else {
      assert (a + b)[0] == a[0];
      assert (a + b)[1..] == a[1..] + b;
      WithoutHyphensAppend(a[1..], b);
    }
  }

  lemma {:induction false} WithoutHyphensHex(bs: seq<bv8>)
    ensures WithoutHyphens(Hex(bs)) == Hex(bs)
  {
    if bs != [] {
      var h := HexByte(bs[0]);
      WithoutHyphensAppend(h, Hex(bs[1..]));
      assert h == [h[0]] + [h[1]];
      WithoutHyphensAppend([h[0]], [h[1]]);
      WithoutHyphensHex(bs[1..]);
    }
  }

  /** Removing the hyphens from hyphenated hyphen-free digits gives the digits. */
  lemma WithoutHyphensHyphenate(h: string)
    requires |h| == 32 && '-' !in h
    ensures WithoutHyphens(Hyphenate(h)) == h
  {
    var p0, p1, p2, p3, p4 := h[..8], h[8..12], h[12..16], h[16..20], h[20..];
    NoHyphens(p0);
    DropHyphen(p0, p1);
    DropHyphen(p0 + "-" + p1, p2);
    DropHyphen(p0 + "-" + p1 + "-" + p2, p3);
    DropHyphen(p0 + "-" + p1 + "-" + p2 + "-" + p3, p4);
    assert p0 + p1 + p2 + p3 + p4 == h;
  }

  lemma DropHyphen(x: string, y: string)
    requires '-' !in y
    ensures WithoutHyphens(x + "-" + y) == WithoutHyphens(x) + y
  {
    WithoutHyphensAppend(x + "-", y);
    WithoutHyphensAppend(x, "-");
    NoHyphens(y);
  }

  lemma {:induction false} NoHyphens(s: string)
    requires '-' !in s
    ensures WithoutHyphens(s) == s
  {
    if s != [] {
      assert s[0] != '-';
      assert '-' !in s[1..];
      NoHyphens(s[1..]);
    }
  }

  /**
   * The 32-digit form the load command sends: the canonical text with its
   * hyphens removed is exactly the hex of the 16 bytes.
   */
  lemma CompactText(id: StreamId)
    ensures WithoutHyphens(UuidText(id)) == Hex(Bytes(id))
    ensures |WithoutHyphens(UuidText(id))| == 32
  {
    WithoutHyphensHex(Bytes(id));
    WithoutHyphensHyphenate(Hex(Bytes(id)));
  }
}
