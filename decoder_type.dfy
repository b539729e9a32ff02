/**
 * The decoder types the command-line tool accepts
 * (tools/jrtc-ctl/genericdecoder/decoderType.go): a `uint8` enumeration
 * with a name for each known type, the inverse parse, and the control
 * port each type listens on by default.
 */
module DecoderType {
  import opened Wrappers

  /** `decoderType`, a `uint8`: any byte is a value, three of them named. */
  newtype Kind = x: int | 0 <= x < 256

  const NIL_METHOD: Kind := 0
  const DECODER_GRPC: Kind := 1
  const DECODER_HTTP: Kind := 2

  /** The types the parser accepts, in order. */
  const ALL_DECODER_TYPES: seq<Kind> := [DECODER_GRPC, DECODER_HTTP]
  const DEFAULT_DECODER_TYPE: Kind := DECODER_GRPC

  /** `decoder.DefaultControlPort` and `decoder.DefaultControlGatewayPort`. */
  const DEFAULT_CONTROL_PORT: nat := 20789
  const DEFAULT_CONTROL_GATEWAY_PORT: nat := 20787

  const UNKNOWN := "unknown"

  /** `String`: the known types' names; "unknown" for every other byte, `nilMethod` included. */
  function Name(m: Kind): (r: string)
    ensures r == UNKNOWN <==> m !in ALL_DECODER_TYPES
    ensures r != []
  {
    if m == DECODER_GRPC then "decodergrpc"
    else if m == DECODER_HTTP then "decoderhttp"
    else UNKNOWN
  }

  /** `defaultPort`: the map's entry, and the zero value for a type without one. */
  function DefaultPort(m: Kind): (p: nat)
    ensures p < 0x1_0000
  {
    var ports := map[DECODER_GRPC := DEFAULT_CONTROL_PORT, DECODER_HTTP := DEFAULT_CONTROL_GATEWAY_PORT];
    if m in ports then ports[m] else 0
  }

  /** The error `decoderTypeFromString` returns, listing the accepted names. */
  function UnrecognizedError(val: string): string
  {
    "unrecognized decoder type " + val + ", expected one of: " + Name(DECODER_GRPC) + ", " + Name(DECODER_HTTP)
  }

  /** The loop of `decoderTypeFromString`: the first type from `i` on whose name is `val`. */
  function FindType(val: string, i: nat): (r: Option<Kind>)
    ensures r.Some? ==> r.value in ALL_DECODER_TYPES && Name(r.value) == val
    decreases |ALL_DECODER_TYPES| - i
  {
    if i >= |ALL_DECODER_TYPES| then None
    else if val == Name(ALL_DECODER_TYPES[i]) then Some(ALL_DECODER_TYPES[i])
    else FindType(val, i + 1)
  }

  /** `decoderTypeFromString`: the type named `val`, else `nilMethod` and an error. */
  function FromString(val: string): (r: (Kind, Option<string>))
    ensures r.1.None? ==> r.0 in ALL_DECODER_TYPES && Name(r.0) == val
    ensures r.1.Some? ==> r == (NIL_METHOD, Some(UnrecognizedError(val)))
  {
    match FindType(val, 0)
    case Some(m) => (m, None)
    case None => (NIL_METHOD, Some(UnrecognizedError(val)))
  }

  /** Parsing inverts naming on the two accepted types, and accepts nothing else, "unknown" included. */
  lemma {:induction false} FromStringInvertsName(val: string, m: Kind)
    ensures m in ALL_DECODER_TYPES ==> FromString(Name(m)) == (m, None)
    ensures FromString(val).1.None? ==> FromString(val).0 in ALL_DECODER_TYPES && Name(FromString(val).0) == val
    ensures FromString(val).1.Some? ==> FromString(val).0 == NIL_METHOD
    ensures FromString(UNKNOWN).1.Some?
  {
    assert Name(DECODER_GRPC) != Name(DECODER_HTTP) by {
      assert Name(DECODER_GRPC)[7] != Name(DECODER_HTTP)[7];
    }
    assert UNKNOWN != Name(DECODER_GRPC) && UNKNOWN != Name(DECODER_HTTP) by {
      assert |UNKNOWN| != |Name(DECODER_GRPC)|;
    }
    if FindType(val, 0).None? {
      assert FindType(val, 1).None?;
    }
  }

  /** The default ports: 20789 for gRPC, 20787 for HTTP, and 0 for every other byte. */
  lemma DefaultPorts(m: Kind)
    ensures DefaultPort(DECODER_GRPC) == 20789 && DefaultPort(DECODER_HTTP) == 20787
    ensures m !in ALL_DECODER_TYPES ==> DefaultPort(m) == 0
    ensures DefaultPort(DEFAULT_DECODER_TYPE) == DEFAULT_CONTROL_PORT
  {
  }
}
