/**
 * The `jbpf load` command (tools/jrtc-ctl/cmd/jbpf/load/load.go): it checks
 * the device id, groups the codelet set's protobuf schemas by package for the
 * local decoder, and builds the codelet-set load request for the jbpf agent.
 * Stream-id generation (`jrtcbindings.GenerateStreamID`) and `os.ReadFile`
 * are parameters; sending the two requests is left to the caller.
 */
module JbpfLoad {
  import opened Wrappers
  import opened StreamIdCodec
  import opened StreamIdText
  import GoStreamId
  import RouterDestination
  import Cfg = JbpfCodeletConfig

  const DEFAULT_JRTC_APP_NAME := "jrtc_app"

  /** `maxDeviceID`, `1<<7 - 1`: the largest value the 7-bit device field holds. */
  const MAX_DEVICE_ID: bv8 := 127

  /** `jrtcbindings.DeviceIDAny`. */
  const DEVICE_ID_ANY_U8: bv8 := 0x7F

  /** `GenerateStreamID(destination, deviceID, &path, &name)`. */
  type Generator = (RouterDestination.Destination, bv8, string, string) -> Result<StreamId>

  /** `os.ReadFile`. */
  type Reader = string -> Result<seq<bv8>>

  // ---------------------------------------------------------------- parse

  const DEVICE_ID_TOO_LARGE := "device ID must be less or equal to 127"

  /** `runOptions.parse`: the device id must fit the stream id's device field. */
  function Parse(deviceId: bv8): (r: Option<string>)
    ensures r.None? <==> deviceId < 0x80
    ensures r.Some? ==> r.value == DEVICE_ID_TOO_LARGE
  {
    if deviceId > MAX_DEVICE_ID then Some(DEVICE_ID_TOO_LARGE) else None
  }

  /**
   * The accepted device ids are exactly those the 7-bit device field keeps,
   * and an accepted id reads back unchanged from any id generated for it.
   */
  lemma ParseGuardsDeviceField(deviceId: bv8, dest: bv8, pathHash: bv64, nameHash: bv64)
    ensures Parse(deviceId).None? <==> deviceId as bv64 & 0x7F == deviceId as bv64
    ensures Parse(deviceId).Some? ==> Parse(deviceId) == Some(DEVICE_ID_TOO_LARGE)
    ensures Parse(deviceId).None? && dest < 0x80 ==>
      GoStreamId.GoDeviceId(Encode(Fields(STREAM_ID_VERSION, dest as bv64 & 0x7F, deviceId as bv64 & 0x7F, pathHash, nameHash))) == deviceId
  {
    if Parse(deviceId).None? && dest < 0x80 {
      GoStreamId.GeneratedGetters(dest, deviceId, pathHash, nameHash);
    }
  }

  /** A rejected id would be generated as another device: 128 lands on device 0. */
  lemma RejectedDeviceAliases(dest: bv8, pathHash: bv64, nameHash: bv64)
    requires dest < 0x80
    ensures Parse(128).Some?
    ensures GoStreamId.GoDeviceId(Encode(Fields(STREAM_ID_VERSION, dest as bv64 & 0x7F, (128 as bv8) as bv64 & 0x7F, pathHash, nameHash))) == 0
  {
    assert (128 as bv8) as bv64 & 0x7F == 0;
    GoStreamId.GeneratedGetters(dest, 0, pathHash, nameHash);
  }

  // ---------------------------------------------------------------- paths

  /** `streamPathFormat`, "%s://jbpf_agent/%s/%s": 15 characters besides the three parts. */
  function StreamPath(appName: string, setId: string, codeletName: string): (r: string)
    ensures |r| == |appName| + 15 + |setId| + |codeletName|
  {
    appName + "://jbpf_agent/" + setId + "/" + codeletName
  }

  /**
   * A stream path starts with the app name and "://jbpf_agent/", and ends
   * with '/' and the codelet name, which is then its base name when it
   * holds no '/'.
   */
  lemma StreamPathLayout(appName: string, setId: string, codeletName: string)
    ensures var r := StreamPath(appName, setId, codeletName);
      r[..|appName|] == appName && r[|appName|..|appName| + 14] == "://jbpf_agent/" &&
      r[|r| - |codeletName|..] == codeletName && r[|r| - |codeletName| - 1] == '/'
    ensures '/' !in codeletName && codeletName != [] ==> Base(StreamPath(appName, setId, codeletName)) == codeletName
  {
    var r := StreamPath(appName, setId, codeletName);
    if '/' !in codeletName && codeletName != [] {
      assert r == (appName + "://jbpf_agent/" + setId) + "/" + codeletName;
      AfterLastSlash(appName + "://jbpf_agent/" + setId, codeletName);
    }
  }

  /** The characters after the last '/' (all of `s` when it has none). */
  function AfterLast(s: string): (r: string)
    ensures '/' !in r
    ensures |r| <= |s| && r == s[|s| - |r|..]
  {
    if s == [] || s[|s| - 1] == '/' then [] else AfterLast(s[..|s| - 1]) + [s[|s| - 1]]
  }

  function TrimTrailingSlashes(s: string): (r: string)
    ensures r == [] || r[|r| - 1] != '/'
    ensures r <= s
  {
    if s == [] || s[|s| - 1] != '/' then s else TrimTrailingSlashes(s[..|s| - 1])
  }

  /** Go's `filepath.Base` on a Unix path. */
  function Base(path: string): (r: string)
    ensures r != []
    ensures path != [] ==> |r| <= |path|
    ensures '/' in r ==> r == "/"
  {
    if path == [] then "."
    else
      var s := TrimTrailingSlashes(path);
      if s == [] then "/" else AfterLast(s)
  }

  /** `strings.TrimSuffix`. */
  function TrimSuffix(s: string, suffix: string): string
  {
    if |suffix| <= |s| && s[|s| - |suffix|..] == suffix then s[..|s| - |suffix|] else s
  }

  /**
   * The name a protobuf package is registered under: its file's base name
   * without ".pb". It holds no '/' unless the path is only slashes, and is
   * no longer than the path.
   */
  function ProtoName(packagePath: string): (r: string)
    ensures '/' in r ==> r == "/"
    ensures packagePath != [] ==> |r| <= |packagePath|
  {
    TrimSuffix(Base(packagePath), ".pb")
  }

  lemma {:induction false} AfterLastSlash(dir: string, file: string)
    requires '/' !in file
    ensures AfterLast(dir + "/" + file) == file
  {
    if file != [] {
      var init := file[..|file| - 1];
      assert (dir + "/" + file)[..|dir + "/" + file| - 1] == dir + "/" + init;
      AfterLastSlash(dir, init);
      assert init + [file[|file| - 1]] == file;
    } else {
      assert dir + "/" + file == dir + "/";
    }
  }

  /** A package file "dir/name.pb" registers as "name", whatever the directory. */
  lemma ProtoNameOfPackage(dir: string, name: string)
    requires name != [] && '/' !in name
    ensures ProtoName(dir + "/" + name + ".pb") == name
  {
    var path := dir + "/" + name + ".pb";
    assert path == dir + "/" + (name + ".pb");
    assert '/' !in name + ".pb";
    assert TrimTrailingSlashes(path) == path;
    AfterLastSlash(dir, name + ".pb");
    var b := name + ".pb";
    assert b[|b| - 3..] == ".pb";
    assert b[..|b| - 3] == name;
  }

  /** Other extensions are kept: "dir/name.pbx" registers as "name.pbx". */
  lemma ProtoNameKeepsOtherExtensions()
    ensures ProtoName("d/m.pbx") == "m.pbx"
  {
    AfterLastSlash("d", "m.pbx");
    assert "d/m.pbx" == "d" + "/" + "m.pbx";
    assert "m.pbx"[2..] != ".pb";
  }

  // ---------------------------------------------------------------- SchemasDecoder

  /** `decoder.LoadRequest`: a compiled package and the stream id of each message it decodes. */
  datatype LoadRequest = LoadRequest(compiledProto: seq<bv8>, streams: map<string, seq<bv8>>)

  /** An out channel together with the name of its codelet. */
  datatype Entry = Entry(codeletName: string, channel: Cfg.Channel)

  function ChannelEntries(codeletName: string, chans: seq<Cfg.Channel>): (es: seq<Entry>)
    ensures |es| == |chans|
  {
    seq(|chans|, j requires 0 <= j < |chans| => Entry(codeletName, chans[j]))
  }

  /** The out channels of every codelet, in the order the two loops visit them. */
  function OutEntries(cs: seq<Cfg.Codelet>): seq<Entry>
  {
    if cs == [] then [] else OutEntries(cs[..|cs| - 1]) + ChannelEntries(cs[|cs| - 1].name, cs[|cs| - 1].outChannels)
  }

  predicate HasProto(e: Entry)
  {
    e.channel.serde.Some? && e.channel.serde.value.protobuf.Some?
  }

  function Pb(e: Entry): Cfg.Protobuf
    requires HasProto(e)
  {
    e.channel.serde.value.protobuf.value
  }

  function EntryProto(e: Entry): string
    requires HasProto(e)
  {
    ProtoName(Pb(e).packagePath)
  }

  /** The decoder's stream id for a channel: any destination, any device. */
  function EntryId(e: Entry, appName: string, setId: string, gen: Generator): Result<StreamId>
  {
    gen(RouterDestination.DESTINATION_ANY, DEVICE_ID_ANY_U8, StreamPath(appName, setId, e.codeletName), e.channel.name)
  }

  /** One pass of the inner loop of `SchemasDecoder`. */
  function SchemaStep(m: map<string, LoadRequest>, e: Entry, appName: string, setId: string,
                      gen: Generator, read: Reader): Result<map<string, LoadRequest>>
  {
    if !HasProto(e) then Ok(m)
    else
      var p := EntryProto(e);
      var base := if p in m then Ok(m[p])
                  else match read(Pb(e).packagePath)
                    case Err(err) => Err(err)
                    case Ok(proto) => Ok(LoadRequest(proto, map[]));
      match base
      case Err(err) => Err(err)
      case Ok(req) =>
        match EntryId(e, appName, setId, gen)
        case Err(err) => Err(err)
        case Ok(id) => Ok(m[p := req.(streams := req.streams[Pb(e).messageName := Bytes(id)])])
  }

  /** The schemas `SchemasDecoder` hands to the decoder, or its first error. */
  function Schemas(es: seq<Entry>, appName: string, setId: string, gen: Generator, read: Reader)
    : (r: Result<map<string, LoadRequest>>)
    ensures r.Ok? ==> |r.value| <= |es|
  {
    if es == [] then Ok(map[])
    else match Schemas(es[..|es| - 1], appName, setId, gen, read)
      case Err(err) => Err(err)
      case Ok(m) =>
        StepEffect(m, es[|es| - 1], appName, setId, gen, read);
        SchemaStep(m, es[|es| - 1], appName, setId, gen, read)
  }

  /** `SchemasDecoder`, up to `dec.Load`: the request map, or the first error. */
  method SchemasDecoder(cfg: Cfg.CodeletSet, appName: string, gen: Generator, read: Reader)
    returns (r: Result<map<string, LoadRequest>>)
    ensures r == Schemas(OutEntries(cfg.codelets), appName, cfg.id, gen, read)
  {
    var cs := cfg.codelets;
    var schemas: map<string, LoadRequest> := map[];
    var i := 0;
    while i < |cs|
      invariant 0 <= i <= |cs|
      invariant Schemas(OutEntries(cs[..i]), appName, cfg.id, gen, read) == Ok(schemas)
    {
      var c := cs[i];
      var k := 0;
      assert OutEntries(cs[..i]) + ChannelEntries(c.name, c.outChannels[..0]) == OutEntries(cs[..i]);
      while k < |c.outChannels|
        invariant 0 <= k <= |c.outChannels|
        invariant Schemas(OutEntries(cs[..i]) + ChannelEntries(c.name, c.outChannels[..k]), appName, cfg.id, gen, read) == Ok(schemas)
      {
        EntriesStep(cs, i, k);
        SchemasSnoc(OutEntries(cs[..i]) + ChannelEntries(c.name, c.outChannels[..k]), Entry(c.name, c.outChannels[k]), appName, cfg.id, gen, read);
        var next := AddChannel(schemas, Entry(c.name, c.outChannels[k]), appName, cfg.id, gen, read);
        if next.Err? {
          StepFails(cs, i, k, appName, cfg.id, gen, read);
          return Err(next.error);
        }
        schemas := next.value;
        k := k + 1;
      }
      assert c.outChannels[..k] == c.outChannels;
      EntriesNext(cs, i);
      i := i + 1;
    }
    assert cs[..i] == cs;
    return Ok(schemas);
  }

  /** The body of the inner loop, for the channel `e.channel` of codelet `e.codeletName`. */
  method AddChannel(schemas: map<string, LoadRequest>, e: Entry, appName: string, setId: string, gen: Generator, read: Reader)
    returns (r: Result<map<string, LoadRequest>>)
    ensures r == SchemaStep(schemas, e, appName, setId, gen, read)
  {
    var io := e.channel;
    if io.serde.None? || io.serde.value.protobuf.None? {
      return Ok(schemas);
    }
    var pb := io.serde.value.protobuf.value;
    var protoName := ProtoName(pb.packagePath);
    var req: LoadRequest;
    if protoName in schemas {
      req := schemas[protoName];
    } else {
      var proto := read(pb.packagePath);
      if proto.Err? {
        return Err(proto.error);
      }
      req := LoadRequest(proto.value, map[]);
    }
    var streamPath := StreamPath(appName, setId, e.codeletName);
    var streamId := gen(RouterDestination.DESTINATION_ANY, DEVICE_ID_ANY_U8, streamPath, io.name);
    if streamId.Err? {
      return Err(streamId.error);
    }
    return Ok(schemas[protoName := req.(streams := req.streams[pb.messageName := Bytes(streamId.value)])]);
  }

  lemma SchemasSnoc(es: seq<Entry>, e: Entry, appName: string, setId: string, gen: Generator, read: Reader)
    ensures Schemas(es, appName, setId, gen, read).Err? ==>
      Schemas(es + [e], appName, setId, gen, read) == Schemas(es, appName, setId, gen, read)
    ensures Schemas(es, appName, setId, gen, read).Ok? ==>
      Schemas(es + [e], appName, setId, gen, read) == SchemaStep(Schemas(es, appName, setId, gen, read).value, e, appName, setId, gen, read)
  {
    assert (es + [e])[..|es + [e]| - 1] == es;
  }

  lemma EntriesNext(cs: seq<Cfg.Codelet>, i: nat)
    requires i < |cs|
    ensures OutEntries(cs[..i + 1]) == OutEntries(cs[..i]) + ChannelEntries(cs[i].name, cs[i].outChannels)
  {
    assert cs[..i + 1][..i] == cs[..i];
  }

  lemma EntriesStep(cs: seq<Cfg.Codelet>, i: nat, k: nat)
    requires i < |cs| && k < |cs[i].outChannels|
    ensures OutEntries(cs[..i]) + ChannelEntries(cs[i].name, cs[i].outChannels[..k + 1]) ==
      OutEntries(cs[..i]) + ChannelEntries(cs[i].name, cs[i].outChannels[..k]) + [Entry(cs[i].name, cs[i].outChannels[k])]
  {
    var c := cs[i];
    assert ChannelEntries(c.name, c.outChannels[..k + 1]) == ChannelEntries(c.name, c.outChannels[..k]) + [Entry(c.name, c.outChannels[k])];
  }

  lemma {:induction false} OutEntriesPrefix(cs: seq<Cfg.Codelet>, j: nat)
    requires j <= |cs|
    ensures OutEntries(cs[..j]) <= OutEntries(cs)
  {
    if j < |cs| {
      var init := cs[..|cs| - 1];
      OutEntriesPrefix(init, j);
      assert init[..j] == cs[..j];
    } else {
      assert cs[..j] == cs;
    }
  }

  /** The entries up to channel `k` of codelet `i` come first in the whole list. */
  lemma EntriesPrefix(cs: seq<Cfg.Codelet>, i: nat, k: nat)
    requires i < |cs| && k <= |cs[i].outChannels|
    ensures OutEntries(cs[..i]) + ChannelEntries(cs[i].name, cs[i].outChannels[..k]) <= OutEntries(cs)
  {
    EntriesNext(cs, i);
    OutEntriesPrefix(cs, i + 1);
    var c := cs[i];
    assert ChannelEntries(c.name, c.outChannels[..k]) <= ChannelEntries(c.name, c.outChannels);
  }

  /** An error ends the fold: every longer list fails the same way. */
  lemma {:induction false} SchemasErrSticks(a: seq<Entry>, b: seq<Entry>, appName: string, setId: string, gen: Generator, read: Reader)
    requires Schemas(a, appName, setId, gen, read).Err? && a <= b
    ensures Schemas(b, appName, setId, gen, read) == Schemas(a, appName, setId, gen, read)
  {
    if |a| < |b| {
      SchemasErrSticks(a, b[..|b| - 1], appName, setId, gen, read);
    } else {
      assert a == b;
    }
  }

  lemma StepFails(cs: seq<Cfg.Codelet>, i: nat, k: nat, appName: string, setId: string, gen: Generator, read: Reader)
    requires i < |cs| && k < |cs[i].outChannels|
    requires Schemas(OutEntries(cs[..i]) + ChannelEntries(cs[i].name, cs[i].outChannels[..k + 1]), appName, setId, gen, read).Err?
    ensures Schemas(OutEntries(cs), appName, setId, gen, read) ==
      Schemas(OutEntries(cs[..i]) + ChannelEntries(cs[i].name, cs[i].outChannels[..k + 1]), appName, setId, gen, read)
  {
    EntriesPrefix(cs, i, k + 1);
    SchemasErrSticks(OutEntries(cs[..i]) + ChannelEntries(cs[i].name, cs[i].outChannels[..k + 1]), OutEntries(cs), appName, setId, gen, read);
  }

  // ---- what one step does

  /**
   * A channel without a protobuf serde changes nothing. Otherwise its package
   * becomes a key; a new key holds the package file's contents, an existing
   * one keeps the contents it had; the message now maps to the channel's
   * decoder stream id; every other key is left alone.
   */
  lemma StepEffect(m: map<string, LoadRequest>, e: Entry, appName: string, setId: string, gen: Generator, read: Reader)
    ensures !HasProto(e) ==> SchemaStep(m, e, appName, setId, gen, read) == Ok(m)
    ensures HasProto(e) && SchemaStep(m, e, appName, setId, gen, read).Ok? ==>
      var r := SchemaStep(m, e, appName, setId, gen, read).value;
      var p := EntryProto(e);
      r.Keys == m.Keys + {p} &&
      (forall q :: q in m && q != p ==> r[q] == m[q]) &&
      (p in m ==> r[p].compiledProto == m[p].compiledProto && r[p].streams.Keys == m[p].streams.Keys + {Pb(e).messageName} &&
                  forall msg :: msg in m[p].streams && msg != Pb(e).messageName ==> r[p].streams[msg] == m[p].streams[msg]) &&
      (p !in m ==> read(Pb(e).packagePath) == Ok(r[p].compiledProto) && r[p].streams.Keys == {Pb(e).messageName}) &&
      EntryId(e, appName, setId, gen).Ok? && r[p].streams[Pb(e).messageName] == Bytes(EntryId(e, appName, setId, gen).value)
  {
  }

  /** A package already registered is not read again: the reader is not consulted. */
  lemma ReadOnlyWhenNew(m: map<string, LoadRequest>, e: Entry, appName: string, setId: string, gen: Generator, read1: Reader, read2: Reader)
    requires HasProto(e) && EntryProto(e) in m
    ensures SchemaStep(m, e, appName, setId, gen, read1) == SchemaStep(m, e, appName, setId, gen, read2)
  {
  }

  // ---- what the whole grouping gives

  /** Some channel with a protobuf serde registers under `p`. */
  predicate Declares(es: seq<Entry>, p: string)
  {
    exists k :: 0 <= k < |es| && HasProto(es[k]) && EntryProto(es[k]) == p
  }

  /** Channel `k` is the first to register under `p`. */
  predicate FirstFor(es: seq<Entry>, k: nat, p: string)
  {
    k < |es| && HasProto(es[k]) && EntryProto(es[k]) == p && !Declares(es[..k], p)
  }

  /** Channel `k` is the last to give message `msg` of package `p`. */
  predicate LastFor(es: seq<Entry>, k: nat, p: string, msg: string)
  {
    k < |es| && HasProto(es[k]) && EntryProto(es[k]) == p && Pb(es[k]).messageName == msg &&
    forall l :: k < l < |es| && HasProto(es[l]) ==> EntryProto(es[l]) != p || Pb(es[l]).messageName != msg
  }

  lemma DeclaresSnoc(es: seq<Entry>, p: string)
    requires es != []
    ensures Declares(es, p) <==>
      Declares(es[..|es| - 1], p) || (HasProto(es[|es| - 1]) && EntryProto(es[|es| - 1]) == p)
  {
    var init := es[..|es| - 1];
    assert forall k :: 0 <= k < |init| ==> init[k] == es[k];
  }

  /** The keys are exactly the packages some channel declares. */
  lemma {:induction false} SchemasKeys(es: seq<Entry>, appName: string, setId: string, gen: Generator, read: Reader, p: string)
    requires Schemas(es, appName, setId, gen, read).Ok?
    ensures p in Schemas(es, appName, setId, gen, read).value <==> Declares(es, p)
  {
    if es != [] {
      var init := es[..|es| - 1];
      SchemasKeys(init, appName, setId, gen, read, p);
      StepEffect(Schemas(init, appName, setId, gen, read).value, es[|es| - 1], appName, setId, gen, read);
      DeclaresSnoc(es, p);
    }
  }

  /** A step keeps the contents of every package already registered. */
  lemma StepKeepsContents(m: map<string, LoadRequest>, e: Entry, appName: string, setId: string, gen: Generator, read: Reader, q: string)
    requires SchemaStep(m, e, appName, setId, gen, read).Ok? && q in m
    ensures q in SchemaStep(m, e, appName, setId, gen, read).value
    ensures SchemaStep(m, e, appName, setId, gen, read).value[q].compiledProto == m[q].compiledProto
  {
  }

  /** A step that registers a new package holds the contents of its file. */
  lemma StepReadsNew(m: map<string, LoadRequest>, e: Entry, appName: string, setId: string, gen: Generator, read: Reader)
    requires SchemaStep(m, e, appName, setId, gen, read).Ok? && HasProto(e) && EntryProto(e) !in m
    ensures EntryProto(e) in SchemaStep(m, e, appName, setId, gen, read).value
    ensures read(Pb(e).packagePath) == Ok(SchemaStep(m, e, appName, setId, gen, read).value[EntryProto(e)].compiledProto)
  {
  }

  /** Each package keeps the contents of the file named by the first channel that declares it. */
  lemma {:induction false} SchemasFirstProto(es: seq<Entry>, appName: string, setId: string, gen: Generator, read: Reader, k: nat, p: string)
    requires Schemas(es, appName, setId, gen, read).Ok? && FirstFor(es, k, p)
    ensures p in Schemas(es, appName, setId, gen, read).value
    ensures read(Pb(es[k]).packagePath) == Ok(Schemas(es, appName, setId, gen, read).value[p].compiledProto)
  {
    var init := es[..|es| - 1];
    var e := es[|es| - 1];
    assert es == init + [e];
    SchemasSnoc(init, e, appName, setId, gen, read);
    if k == |es| - 1 {
      assert es[..k] == init;
      FirstProtoAtLast(init, e, appName, setId, gen, read, p);
    } else {
      assert FirstFor(init, k, p) by {
        assert init[..k] == es[..k];
        assert init[k] == es[k];
      }
      SchemasFirstProto(init, appName, setId, gen, read, k, p);
      StepKeepsContents(Schemas(init, appName, setId, gen, read).value, e, appName, setId, gen, read, p);
    }
  }

  lemma FirstProtoAtLast(init: seq<Entry>, e: Entry, appName: string, setId: string, gen: Generator, read: Reader, p: string)
    requires Schemas(init, appName, setId, gen, read).Ok?
    requires SchemaStep(Schemas(init, appName, setId, gen, read).value, e, appName, setId, gen, read).Ok?
    requires HasProto(e) && EntryProto(e) == p && !Declares(init, p)
    ensures p in SchemaStep(Schemas(init, appName, setId, gen, read).value, e, appName, setId, gen, read).value
    ensures read(Pb(e).packagePath) ==
      Ok(SchemaStep(Schemas(init, appName, setId, gen, read).value, e, appName, setId, gen, read).value[p].compiledProto)
  {
    SchemasKeys(init, appName, setId, gen, read, p);
    StepReadsNew(Schemas(init, appName, setId, gen, read).value, e, appName, setId, gen, read);
  }

  /** Each message maps to the stream id of the last channel that names it in its package. */
  lemma {:induction false} SchemasLastStream(es: seq<Entry>, appName: string, setId: string, gen: Generator, read: Reader, k: nat, p: string, msg: string)
    requires Schemas(es, appName, setId, gen, read).Ok? && LastFor(es, k, p, msg)
    ensures p in Schemas(es, appName, setId, gen, read).value
    ensures msg in Schemas(es, appName, setId, gen, read).value[p].streams
    ensures EntryId(es[k], appName, setId, gen).Ok?
    ensures Schemas(es, appName, setId, gen, read).value[p].streams[msg] == Bytes(EntryId(es[k], appName, setId, gen).value)
  {
    var init := es[..|es| - 1];
    var e := es[|es| - 1];
    var m := Schemas(init, appName, setId, gen, read).value;
    if k == |es| - 1 {
      StepEffect(m, e, appName, setId, gen, read);
    } else {
      assert init[k] == es[k];
      assert LastFor(init, k, p, msg);
      SchemasLastStream(init, appName, setId, gen, read, k, p, msg);
      assert !(HasProto(e) && EntryProto(e) == p && Pb(e).messageName == msg);
      StepKeepsStream(m, e, appName, setId, gen, read, p, msg);
    }
  }

  /** A step for another package or message keeps a message's stream id. */
  lemma StepKeepsStream(m: map<string, LoadRequest>, e: Entry, appName: string, setId: string, gen: Generator, read: Reader,
                        p: string, msg: string)
    requires SchemaStep(m, e, appName, setId, gen, read).Ok? && p in m && msg in m[p].streams
    requires !(HasProto(e) && EntryProto(e) == p && Pb(e).messageName == msg)
    ensures p in SchemaStep(m, e, appName, setId, gen, read).value
    ensures msg in SchemaStep(m, e, appName, setId, gen, read).value[p].streams
    ensures SchemaStep(m, e, appName, setId, gen, read).value[p].streams[msg] == m[p].streams[msg]
  {
    StepEffect(m, e, appName, setId, gen, read);
  }

  /**
   * Only the first file of each package is read: two readers that agree on
   * those files give the same result.
   */
  lemma {:induction false} SchemasReadFirstOnly(es: seq<Entry>, appName: string, setId: string, gen: Generator, read1: Reader, read2: Reader)
    requires forall k: nat, p: string :: FirstFor(es, k, p) ==> read1(Pb(es[k]).packagePath) == read2(Pb(es[k]).packagePath)
    ensures Schemas(es, appName, setId, gen, read1) == Schemas(es, appName, setId, gen, read2)
  {
    if es != [] {
      var init := es[..|es| - 1];
      var e := es[|es| - 1];
      forall k: nat, p: string | FirstFor(init, k, p)
        ensures read1(Pb(init[k]).packagePath) == read2(Pb(init[k]).packagePath)
      {
        assert es[..k] == init[..k];
        assert FirstFor(es, k, p);
      }
      SchemasReadFirstOnly(init, appName, setId, gen, read1, read2);
      var r := Schemas(init, appName, setId, gen, read1);
      if r.Ok? && HasProto(e) {
        SchemasKeys(init, appName, setId, gen, read1, EntryProto(e));
        if EntryProto(e) in r.value {
          ReadOnlyWhenNew(r.value, e, appName, setId, gen, read1, read2);
        } else {
          assert FirstFor(es, |es| - 1, EntryProto(e));
        }
      }
    }
  }

  // ---------------------------------------------------------------- CodeletSet

  /** `LoadCodeletSetRequestIOMap`; the serde is its file path when there is one. */
  datatype IoMap = IoMap(name: string, streamId: string, serde: Option<string>)

  /** `LoadCodeletSetRequestDescriptors`. */
  datatype Descriptor = Descriptor(
    codeletName: string, codeletPath: string, hookName: string, inIoChannel: seq<IoMap>,
    linkedMaps: seq<Cfg.LinkedMap>, outIoChannel: seq<IoMap>, priority: Option<nat>, runtimeThreshold: Option<nat>)

  /** `LoadCodeletSetRequest`. */
  datatype CodeletSetRequest = CodeletSetRequest(codeletDescriptors: seq<Descriptor>, codeletSetId: string)

  /** A serde is passed on only when it names a file. */
  function SerdeFile(io: Cfg.Channel): Option<string>
  {
    if io.serde.Some? && |io.serde.value.filePath| > 0 then Some(io.serde.value.filePath) else None
  }

  /** The 32-digit form the agent receives: the canonical text with its hyphens removed. */
  function Compact(id: StreamId): string
  {
    WithoutHyphens(UuidText(id))
  }

  /** The destination a channel's id is generated with: none for input, the parsed name for output. */
  function ChannelDestination(io: Cfg.Channel, output: bool): Result<RouterDestination.Destination>
  {
    if !output then Ok(RouterDestination.DESTINATION_NONE)
    else match RouterDestination.DestinationFromString(io.forwardDestination)
      case (_, Some(err)) => Err(err)
      case (d, None) => Ok(d)
  }

  /** One map of the request, for an input (`output` false) or output channel. */
  function MapOf(io: Cfg.Channel, streamPath: string, deviceId: bv8, gen: Generator, output: bool): Result<IoMap>
  {
    match ChannelDestination(io, output)
    case Err(err) => Err(err)
    case Ok(d) =>
      match gen(d, deviceId, streamPath, io.name)
      case Err(err) => Err(err)
      case Ok(id) => Ok(IoMap(io.name, Compact(id), SerdeFile(io)))
  }

  /** Applies `f` to each element in order, stopping at the first error. */
  function Collect<T, U>(xs: seq<T>, f: T -> Result<U>): Result<seq<U>>
  {
    if xs == [] then Ok([])
    else match Collect(xs[..|xs| - 1], f)
      case Err(err) => Err(err)
      case Ok(us) =>
        match f(xs[|xs| - 1])
        case Err(err) => Err(err)
        case Ok(u) => Ok(us + [u])
  }

  function MapFn(streamPath: string, deviceId: bv8, gen: Generator, output: bool): Cfg.Channel -> Result<IoMap>
  {
    io => MapOf(io, streamPath, deviceId, gen, output)
  }

  /** The maps of a list of channels, or the first error. */
  function Maps(chans: seq<Cfg.Channel>, streamPath: string, deviceId: bv8, gen: Generator, output: bool): Result<seq<IoMap>>
  {
    Collect(chans, MapFn(streamPath, deviceId, gen, output))
  }

  /** The descriptor of one codelet. */
  function Describe(c: Cfg.Codelet, appName: string, setId: string, deviceId: bv8, gen: Generator): Result<Descriptor>
  {
    var path := StreamPath(appName, setId, c.name);
    match Maps(c.inChannels, path, deviceId, gen, false)
    case Err(err) => Err(err)
    case Ok(ins) =>
      match Maps(c.outChannels, path, deviceId, gen, true)
      case Err(err) => Err(err)
      case Ok(outs) =>
        Ok(Descriptor(c.name, c.codeletPath, c.hookName, ins, c.linkedMaps, outs, c.priority, c.runtimeThreshold))
  }

  function DescribeFn(appName: string, setId: string, deviceId: bv8, gen: Generator): Cfg.Codelet -> Result<Descriptor>
  {
    c => Describe(c, appName, setId, deviceId, gen)
  }

  function Descriptors(cs: seq<Cfg.Codelet>, appName: string, setId: string, deviceId: bv8, gen: Generator): Result<seq<Descriptor>>
  {
    Collect(cs, DescribeFn(appName, setId, deviceId, gen))
  }

  /** The request `CodeletSet` sends, or its first error. */
  function Request(cfg: Cfg.CodeletSet, appName: string, deviceId: bv8, gen: Generator): (r: Result<CodeletSetRequest>)
    ensures r.Ok? <==> forall k :: 0 <= k < |cfg.codelets| ==> Describe(cfg.codelets[k], appName, cfg.id, deviceId, gen).Ok?
    ensures r.Ok? ==> r.value.codeletSetId == cfg.id
  {
    CollectPointwise(cfg.codelets, DescribeFn(appName, cfg.id, deviceId, gen));
    match Descriptors(cfg.codelets, appName, cfg.id, deviceId, gen)
    case Err(err) => Err(err)
    case Ok(ds) => Ok(CodeletSetRequest(ds, cfg.id))
  }

  /** The loop over one codelet's input or output channels. */
  method IoMaps(chans: seq<Cfg.Channel>, streamPath: string, deviceId: bv8, gen: Generator, output: bool)
    returns (r: Result<seq<IoMap>>)
    ensures r == Maps(chans, streamPath, deviceId, gen, output)
  {
    var maps: seq<IoMap> := [];
    var k := 0;
    while k < |chans|
      invariant 0 <= k <= |chans|
      invariant Maps(chans[..k], streamPath, deviceId, gen, output) == Ok(maps)
    {
      var m := ChannelMap(chans[k], streamPath, deviceId, gen, output);
      CollectNext(chans, k, MapFn(streamPath, deviceId, gen, output), maps);
      if m.Err? {
        return Err(m.error);
      }
      maps := maps + [m.value];
      k := k + 1;
    }
    assert chans[..k] == chans;
    return Ok(maps);
  }

  /** The body of either channel loop. */
  method ChannelMap(io: Cfg.Channel, streamPath: string, deviceId: bv8, gen: Generator, output: bool)
    returns (r: Result<IoMap>)
    ensures r == MapOf(io, streamPath, deviceId, gen, output)
  {
    var d: RouterDestination.Destination := RouterDestination.DESTINATION_NONE;
    if output {
      var (parsed, err) := RouterDestination.DestinationFromString(io.forwardDestination);
      if err.Some? {
        return Err(err.value);
      }
      d := parsed;
    }
    var streamId := gen(d, deviceId, streamPath, io.name);
    if streamId.Err? {
      return Err(streamId.error);
    }
    return Ok(IoMap(io.name, Compact(streamId.value), SerdeFile(io)));
  }

  /** One more element: its value is appended, or its error is the result of the whole list. */
  lemma {:induction false} CollectNext<T, U>(xs: seq<T>, k: nat, f: T -> Result<U>, us: seq<U>)
    requires k < |xs| && Collect(xs[..k], f) == Ok(us)
    ensures f(xs[k]).Ok? ==> Collect(xs[..k + 1], f) == Ok(us + [f(xs[k]).value])
    ensures f(xs[k]).Err? ==> Collect(xs, f) == Err(f(xs[k]).error)
  {
    assert xs[..k + 1][..k] == xs[..k];
    if f(xs[k]).Err? {
      CollectErrSticks(xs, k + 1, f);
    }
  }

  lemma {:induction false} CollectErrSticks<T, U>(xs: seq<T>, k: nat, f: T -> Result<U>)
    requires k <= |xs| && Collect(xs[..k], f).Err?
    ensures Collect(xs, f) == Collect(xs[..k], f)
  {
    if k < |xs| {
      var init := xs[..|xs| - 1];
      assert init[..k] == xs[..k];
      CollectErrSticks(init, k, f);
    } else {
      assert xs[..k] == xs;
    }
  }

  /** The loop copying a codelet's linked maps. */
  method LinkedMapsOf(c: Cfg.Codelet) returns (lms: seq<Cfg.LinkedMap>)
    ensures lms == c.linkedMaps
  {
    lms := [];
    var k := 0;
    while k < |c.linkedMaps|
      invariant 0 <= k <= |c.linkedMaps|
      invariant lms == c.linkedMaps[..k]
    {
      var l := c.linkedMaps[k];
      lms := lms + [Cfg.LinkedMap(l.linkedCodeletName, l.linkedMapName, l.mapName)];
      assert c.linkedMaps[..k + 1] == c.linkedMaps[..k] + [l];
      k := k + 1;
    }
    assert c.linkedMaps[..k] == c.linkedMaps;
  }

  /** `CodeletSet`, up to `client.LoadCodeletSet`: the request, or the first error. */
  method CodeletSet(cfg: Cfg.CodeletSet, appName: string, deviceId: bv8, gen: Generator)
    returns (r: Result<CodeletSetRequest>)
    ensures r == Request(cfg, appName, deviceId, gen)
  {
    var cs := cfg.codelets;
    var req: seq<Descriptor> := [];
    var i := 0;
    while i < |cs|
      invariant 0 <= i <= |cs|
      invariant Descriptors(cs[..i], appName, cfg.id, deviceId, gen) == Ok(req)
    {
      var c := cs[i];
      CollectNext(cs, i, DescribeFn(appName, cfg.id, deviceId, gen), req);
      var streamPath := StreamPath(appName, cfg.id, c.name);
      var inputMaps := IoMaps(c.inChannels, streamPath, deviceId, gen, false);
      if inputMaps.Err? {
        return Err(inputMaps.error);
      }
      var outputMaps := IoMaps(c.outChannels, streamPath, deviceId, gen, true);
      if outputMaps.Err? {
        return Err(outputMaps.error);
      }
      var linkedMaps := LinkedMapsOf(c);
      var desc := Descriptor(c.name, c.codeletPath, c.hookName, inputMaps.value, linkedMaps,
                             outputMaps.value, c.priority, c.runtimeThreshold);
      req := req + [desc];
      i := i + 1;
    }
    assert cs[..i] == cs;
    return Ok(CodeletSetRequest(req, cfg.id));
  }

  // ---- what the request holds

  predicate AllOk<T, U>(xs: seq<T>, f: T -> Result<U>)
  {
    forall j :: 0 <= j < |xs| ==> f(xs[j]).Ok?
  }

  /** The fold succeeds exactly when every element does, and then holds one result per element, in order. */
  lemma {:induction false} CollectPointwise<T, U>(xs: seq<T>, f: T -> Result<U>)
    ensures Collect(xs, f).Ok? <==> AllOk(xs, f)
    ensures Collect(xs, f).Ok? ==>
      |Collect(xs, f).value| == |xs| && forall j :: 0 <= j < |xs| ==> Collect(xs, f).value[j] == f(xs[j]).value
  {
    if xs != [] {
      var init := xs[..|xs| - 1];
      CollectPointwise(init, f);
      var r0 := Collect(init, f);
      var u := f(xs[|xs| - 1]);
      if r0.Ok? && u.Ok? {
        var us := r0.value + [u.value];
        assert Collect(xs, f) == Ok(us);
        forall j | 0 <= j < |xs|
          ensures f(xs[j]).Ok? && us[j] == f(xs[j]).value
        {
          if j < |init| {
            assert init[j] == xs[j];
          }
        }
      } else if r0.Err? {
        var j :| 0 <= j < |init| && !f(init[j]).Ok?;
        assert init[j] == xs[j];
      }
    }
  }

  /**
   * A successful request carries the set's id and one descriptor per
   * codelet, in order, with the codelet's own name, path, hook, linked maps,
   * priority and runtime threshold, and one map per channel.
   */
  lemma RequestDescribesEachCodelet(cfg: Cfg.CodeletSet, appName: string, deviceId: bv8, gen: Generator, i: nat)
    requires Request(cfg, appName, deviceId, gen).Ok? && i < |cfg.codelets|
    ensures var req := Request(cfg, appName, deviceId, gen).value;
      var c := cfg.codelets[i];
      req.codeletSetId == cfg.id && |req.codeletDescriptors| == |cfg.codelets| &&
      var d := req.codeletDescriptors[i];
      d.codeletName == c.name && d.codeletPath == c.codeletPath && d.hookName == c.hookName &&
      d.linkedMaps == c.linkedMaps && d.priority == c.priority && d.runtimeThreshold == c.runtimeThreshold &&
      |d.inIoChannel| == |c.inChannels| && |d.outIoChannel| == |c.outChannels|
  {
    var c := cfg.codelets[i];
    CollectPointwise(cfg.codelets, DescribeFn(appName, cfg.id, deviceId, gen));
    var path := StreamPath(appName, cfg.id, c.name);
    CollectPointwise(c.inChannels, MapFn(path, deviceId, gen, false));
    CollectPointwise(c.outChannels, MapFn(path, deviceId, gen, true));
  }

  /**
   * Input channel `j` of codelet `i` is sent under its own name, with the id
   * generated for destination none, the device, the codelet's stream path and
   * the channel name, and its serde file only when it names one.
   */
  lemma InputChannelMap(cfg: Cfg.CodeletSet, appName: string, deviceId: bv8, gen: Generator, i: nat, j: nat)
    requires Request(cfg, appName, deviceId, gen).Ok? && i < |cfg.codelets| && j < |cfg.codelets[i].inChannels|
    ensures var c := cfg.codelets[i];
      var io := c.inChannels[j];
      var id := gen(RouterDestination.DESTINATION_NONE, deviceId, StreamPath(appName, cfg.id, c.name), io.name);
      id.Ok? && |Request(cfg, appName, deviceId, gen).value.codeletDescriptors| == |cfg.codelets| &&
      j < |Request(cfg, appName, deviceId, gen).value.codeletDescriptors[i].inIoChannel| &&
      Request(cfg, appName, deviceId, gen).value.codeletDescriptors[i].inIoChannel[j] == IoMap(io.name, Compact(id.value), SerdeFile(io))
  {
    var c := cfg.codelets[i];
    CollectPointwise(cfg.codelets, DescribeFn(appName, cfg.id, deviceId, gen));
    CollectPointwise(c.inChannels, MapFn(StreamPath(appName, cfg.id, c.name), deviceId, gen, false));
  }

  /**
   * Output channel `j` of codelet `i` names a known destination, and is sent
   * with the id generated for that destination.
   */
  lemma OutputChannelMap(cfg: Cfg.CodeletSet, appName: string, deviceId: bv8, gen: Generator, i: nat, j: nat)
    requires Request(cfg, appName, deviceId, gen).Ok? && i < |cfg.codelets| && j < |cfg.codelets[i].outChannels|
    ensures var c := cfg.codelets[i];
      var io := c.outChannels[j];
      var (d, err) := RouterDestination.DestinationFromString(io.forwardDestination);
      var id := gen(d, deviceId, StreamPath(appName, cfg.id, c.name), io.name);
      err.None? && id.Ok? && |Request(cfg, appName, deviceId, gen).value.codeletDescriptors| == |cfg.codelets| &&
      j < |Request(cfg, appName, deviceId, gen).value.codeletDescriptors[i].outIoChannel| &&
      Request(cfg, appName, deviceId, gen).value.codeletDescriptors[i].outIoChannel[j] == IoMap(io.name, Compact(id.value), SerdeFile(io))
  {
    var c := cfg.codelets[i];
    CollectPointwise(cfg.codelets, DescribeFn(appName, cfg.id, deviceId, gen));
    CollectPointwise(c.outChannels, MapFn(StreamPath(appName, cfg.id, c.name), deviceId, gen, true));
  }

  /** An unknown forward destination fails the whole request with the parser's error. */
  lemma UnknownDestinationFails(cfg: Cfg.CodeletSet, appName: string, deviceId: bv8, gen: Generator, i: nat, j: nat)
    requires i < |cfg.codelets| && j < |cfg.codelets[i].outChannels|
    requires RouterDestination.DestinationFromString(cfg.codelets[i].outChannels[j].forwardDestination).1.Some?
    ensures Request(cfg, appName, deviceId, gen).Err?
  {
    var c := cfg.codelets[i];
    CollectPointwise(cfg.codelets, DescribeFn(appName, cfg.id, deviceId, gen));
    CollectPointwise(c.outChannels, MapFn(StreamPath(appName, cfg.id, c.name), deviceId, gen, true));
  }

  /**
   * The stream id sent is 32 lower-case hex digits without hyphens, and it
   * determines the generated id: putting the hyphens back and parsing gives it.
   */
  lemma CompactIsHexDigits(id: StreamId)
    ensures Compact(id) == Hex(Bytes(id)) && |Compact(id)| == 32 && '-' !in Compact(id)
    ensures ParseUuid(Hyphenate(Compact(id))) == Some(id)
  {
    CompactText(id);
    ParseUuidText(id);
  }
}
