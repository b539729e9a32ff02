/**
 * The control operations of the dynamic decoder
 * (tools/jrtc-ctl/services/decoder/server.go): registering a protobuf
 * package under its name, and binding or unbinding a stream id to a
 * message of a registered package. Both tables are `CacheStore.Store`s;
 * decoding a descriptor set and SHA-1 are library calls, given to the
 * server as functions.
 */
module DecoderServer {
  import opened Wrappers
  import opened CacheStore

  /** `RecordedProtoDescriptor`: the SHA-1 of the descriptor set and the set itself. */
  datatype RecordedProtoDescriptor = RecordedProtoDescriptor(checksum: seq<bv8>, protoDescriptor: seq<bv8>)

  /** The zero value of a `[20]byte`. */
  const ZERO_CHECKSUM: seq<bv8> := [0, 0, 0, 0, 0, 0, 0, 0, 0, 0, 0, 0, 0, 0, 0, 0, 0, 0, 0, 0]

  /**
   * A descriptor record after `json.Marshal` and `json.Unmarshal`: the
   * checksum field is unexported, so it is not marshalled and comes back as
   * twenty zero bytes; the descriptor survives.
   */
  function SchemaRoundTrip(d: RecordedProtoDescriptor): (r: RecordedProtoDescriptor)
    ensures r.protoDescriptor == d.protoDescriptor && r.checksum == ZERO_CHECKSUM
  {
    RecordedProtoDescriptor(ZERO_CHECKSUM, d.protoDescriptor)
  }

  /** `RecordedStreamToSchema`: the message and package a stream is decoded with. */
  datatype Association = Association(protoMsg: string, protoPackage: string)

  /** The gRPC status codes the operations use; any other error reaches the caller as `Unknown`. */
  datatype Code = Unknown | InvalidArgument | AlreadyExists | NotFound

  /** Why an operation failed. */
  datatype Failure =
    | Propagated(message: string)   // an error of the store or of the descriptor decoder, returned as is
    | WrongFileCount(count: nat)    // "expected exactly one file descriptor in the set, got %d"
    | AlreadyBound                  // "stream already has a schema association"
    | PackageNotFound(pkg: string)  // "proto package %s not found"
  {
    function Code(): Code
    {
      match this
      case Propagated(_) => Unknown
      case WrongFileCount(_) => InvalidArgument
      case AlreadyBound => AlreadyExists
      case PackageNotFound(_) => NotFound
    }
  }

  /**
   * What an operation answers: a `Response` with `STATUS_OK` and a message,
   * an error, or the index-out-of-range panic of an empty descriptor set.
   */
  datatype Reply = Done(message: string) | Failed(failure: Failure) | IndexOutOfRange

  const ALREADY_REGISTERED := "Proto package already exists, checksum matches"
  const ALREADY_ASSOCIATED := "stream already has a schema association"

  /** An association after its JSON round trip: both fields are exported, so it comes back whole. */
  function AssociationRoundTrip(a: Association): Association
  {
    a
  }

  /** The key transformer of the schema store. */
  function SchemaKey(pkg: string): (r: Result<string>)
    ensures r.Ok? && |r.value| == |pkg| + 7 && r.value[7..] == pkg
  {
    Ok("schema/" + pkg)
  }

  /** Distinct package names have distinct schema keys. */
  lemma SchemaKeyInjective(a: string, b: string)
    requires SchemaKey(a) == SchemaKey(b)
    ensures a == b
  {
    assert a == SchemaKey(a).value[7..];
  }

  /**
   * `filepath.Ext` with `/` as separator: the suffix from the last '.' of the
   * last path element, or "" when that element has no '.'.
   */
  function Ext(path: string): (r: string)
    ensures |r| <= |path| && r == path[|path| - |r|..]
    ensures r != "" ==> r[0] == '.' && '/' !in r && '.' !in r[1..]
    ensures r == "" ==> forall i :: 0 <= i < |path| && path[i] == '.' ==> '/' in path[i..]
  {
    if path == [] || path[|path| - 1] == '/' then ""
    else if path[|path| - 1] == '.' then "."
    else
      var e := Ext(path[..|path| - 1]);
      if e == "" then "" else e + [path[|path| - 1]]
  }

  /** The package name: the first file's name without its final extension (`strings.TrimSuffix(f, filepath.Ext(f))`). */
  function PackageName(file: string): (r: string)
    ensures r + Ext(file) == file
  {
    file[..|file| - |Ext(file)|]
  }

  /** The final extension is dropped, and only the final one. */
  lemma PackageNameDropsExtension()
    ensures PackageName("a.pb") == "a"
  {
    assert Ext("a.p") == ".p";
    assert Ext("a.pb") == ".pb";
    assert "a.pb"[..1] == "a";
  }

  lemma PackageNameDropsFinalExtensionOnly()
    ensures PackageName("a.b.pb") == "a.b"
  {
    assert "a.b.p"[..4] == "a.b." && Ext("a.b.") == ".";
    assert "a.b.pb"[..5] == "a.b.p" && Ext("a.b.p") == ".p";
    assert Ext("a.b.pb") == ".pb";
    assert "a.b.pb"[..3] == "a.b";
  }

  /** A '.' in a directory name is not an extension. */
  lemma PackageNameKeepsDirectoryDots()
    ensures PackageName("d.e/f") == "d.e/f"
  {
    assert Ext("d.e/") == "";
  }

  /**
   * `UpsertProtoPackage` over the schema store's tiers. `files` is the list
   * of file names the descriptor set decodes to, `checksum` its SHA-1.
   */
  function Upsert(enabled: bool, t: Tiers<RecordedProtoDescriptor>, descriptor: seq<bv8>, checksum: seq<bv8>,
                  files: Result<seq<string>>, getFault: Option<string>, setFault: Option<string>): (r: (Reply, Tiers<RecordedProtoDescriptor>))
    ensures r.0 == Done("") ==>
              files.Ok? && |files.value| == 1 && "schema/" + PackageName(files.value[0]) in r.1.mem &&
              r.1.mem["schema/" + PackageName(files.value[0])] == RecordedProtoDescriptor(checksum, descriptor)
    ensures r.1.remote != t.remote ==> r.0 == Done("") && enabled
  {
    if files.Err? then (Failed(Propagated(files.error)), t)
    else if |files.value| == 0 then (IndexOutOfRange, t)
    else if |files.value| != 1 then (Failed(WrongFileCount(|files.value|)), t)
    else
      var pkg := PackageName(files.value[0]);
      var (current, t1) := GetKey(SchemaKey, enabled, t, pkg, getFault);
      if current.Err? then (Failed(Propagated(current.error)), t1)
      else if current.value.Some? && current.value.value.checksum == checksum then (Done(ALREADY_REGISTERED), t1)
      else
        var (err, t2) := SetKey(SchemaKey, SchemaRoundTrip, enabled, t1, pkg, RecordedProtoDescriptor(checksum, descriptor), setFault);
        if err.Some? then (Failed(Propagated(err.value)), t2) else (Done(""), t2)
  }

  /** `AddStreamToSchemaAssociation` over the tiers of both stores. */
  function Bind(enabled: bool, keyOf: seq<bv8> -> Result<string>, schemas: Tiers<RecordedProtoDescriptor>,
                assocs: Tiers<Association>, streamId: seq<bv8>, a: Association,
                f1: Option<string>, f2: Option<string>, f3: Option<string>): (r: (Reply, Tiers<RecordedProtoDescriptor>, Tiers<Association>))
    ensures Caches(enabled, schemas, r.1)
    ensures r.2.remote != assocs.remote ==> r.0 == Done("") && enabled
    ensures r.0 == Done("") && keyOf(streamId).Ok? ==> keyOf(streamId).value in r.2.mem && r.2.mem[keyOf(streamId).value] == a
  {
    var (current, assocs1) := GetKey(keyOf, enabled, assocs, streamId, f1);
    if current.Err? then (Failed(Propagated(current.error)), schemas, assocs1)
    else if current.value.Some? then
      if current.value.value == a then (Done(ALREADY_ASSOCIATED), schemas, assocs1)
      else (Failed(AlreadyBound), schemas, assocs1)
    else
      var (pkg, schemas1) := GetKey(SchemaKey, enabled, schemas, a.protoPackage, f2);
      if pkg.Err? then (Failed(Propagated(pkg.error)), schemas1, assocs1)
      else if pkg.value.None? then (Failed(PackageNotFound(a.protoPackage)), schemas1, assocs1)
      else
        var (err, assocs2) := SetKey(keyOf, AssociationRoundTrip, enabled, assocs1, streamId, a, f3);
        if err.Some? then (Failed(Propagated(err.value)), schemas1, assocs2) else (Done(""), schemas1, assocs2)
  }

  /** `DeleteStreamToSchemaAssociation` over the association store's tiers. */
  function Unbind(enabled: bool, keyOf: seq<bv8> -> Result<string>, assocs: Tiers<Association>, streamId: seq<bv8>,
                  f1: Option<string>, f2: Option<string>): (r: (Reply, Tiers<Association>))
    ensures r.0 == Done("") && keyOf(streamId).Ok? ==> keyOf(streamId).value !in r.1.mem
    ensures r.0.Failed? ==> r.1.remote == assocs.remote
  {
    var (current, assocs1) := GetKey(keyOf, enabled, assocs, streamId, f1);
    if current.Err? then (Failed(Propagated(current.error)), assocs1)
    else if current.value.None? then (Done(""), assocs1)
    else
      var (err, assocs2) := DeleteKey(keyOf, enabled, assocs1, streamId, f2);
      if err.Some? then (Failed(Propagated(err.value)), assocs2) else (Done(""), assocs2)
  }

  // ---- properties of the three operations ----

  /** A set of other than one file is refused before the store is consulted; an empty set indexes out of range first. */
  lemma UpsertNeedsOneFile(enabled: bool, t: Tiers<RecordedProtoDescriptor>, descriptor: seq<bv8>, checksum: seq<bv8>,
                           files: seq<string>, f1: Option<string>, f2: Option<string>)
    requires |files| != 1
    ensures var (r, t') := Upsert(enabled, t, descriptor, checksum, Ok(files), f1, f2);
      t' == t && (if files == [] then r == IndexOutOfRange else r.Failed? && r.failure.Code() == InvalidArgument)
  {
  }

  /**
   * A successful upsert stores the descriptor and its checksum under
   * "schema/" + package name, and upserting the same descriptor again
   * answers "already exists" and changes nothing.
   */
  lemma UpsertThenUpsertAgain(enabled: bool, t: Tiers<RecordedProtoDescriptor>, descriptor: seq<bv8>, checksum: seq<bv8>,
                              file: string, f1: Option<string>, f2: Option<string>, g1: Option<string>, g2: Option<string>)
    requires Upsert(enabled, t, descriptor, checksum, Ok([file]), f1, f2).0 == Done("")
    ensures var t' := Upsert(enabled, t, descriptor, checksum, Ok([file]), f1, f2).1;
      Fetch(enabled, t', "schema/" + PackageName(file), g1).0 == Ok(Some(RecordedProtoDescriptor(checksum, descriptor))) &&
      Upsert(enabled, t', descriptor, checksum, Ok([file]), g1, g2) == (Done(ALREADY_REGISTERED), t')
  {
    var pkg := PackageName(file);
    var t1 := GetKey(SchemaKey, enabled, t, pkg, f1).1;
    FetchAfterPut(SchemaRoundTrip, enabled, t1, "schema/" + pkg, RecordedProtoDescriptor(checksum, descriptor), f2, g1);
  }

  /** An upsert with a new checksum overwrites the package, whatever was stored before. */
  lemma UpsertOverwrites(enabled: bool, t: Tiers<RecordedProtoDescriptor>, descriptor: seq<bv8>, checksum: seq<bv8>,
                         file: string, f1: Option<string>, g: Option<string>)
    requires "schema/" + PackageName(file) in t.mem && t.mem["schema/" + PackageName(file)].checksum != checksum
    ensures var (r, t') := Upsert(enabled, t, descriptor, checksum, Ok([file]), f1, None);
      r == Done("") && Fetch(enabled, t', "schema/" + PackageName(file), g).0 == Ok(Some(RecordedProtoDescriptor(checksum, descriptor)))
  {
    var t1 := GetKey(SchemaKey, enabled, t, PackageName(file), f1).1;
    FetchAfterPut(SchemaRoundTrip, enabled, t1, "schema/" + PackageName(file), RecordedProtoDescriptor(checksum, descriptor), None, g);
  }

  /**
   * The checksum does not survive Redis: once the memory tier has lost a
   * package (a server started afresh over the same database), upserting the
   * very same descriptor again compares against the zero checksum,
   * overwrites the package and answers OK, not "already exists".
   */
  lemma ReupsertAfterMemoryMissOverwrites(t: Tiers<RecordedProtoDescriptor>, descriptor: seq<bv8>, checksum: seq<bv8>,
                                          file: string, mem: map<string, RecordedProtoDescriptor>)
    requires checksum != ZERO_CHECKSUM
    requires Upsert(true, t, descriptor, checksum, Ok([file]), None, None).0 == Done("")
    requires "schema/" + PackageName(file) !in mem
    ensures var remote := Upsert(true, t, descriptor, checksum, Ok([file]), None, None).1.remote;
      var (r, t') := Upsert(true, Tiers(mem, remote), descriptor, checksum, Ok([file]), None, None);
      r == Done("") && t'.mem["schema/" + PackageName(file)] == RecordedProtoDescriptor(checksum, descriptor)
  {
    var q := "schema/" + PackageName(file);
    var t1 := GetKey(SchemaKey, true, t, PackageName(file), None).1;
    FetchAfterPutFromRemote(SchemaRoundTrip, t1, q, RecordedProtoDescriptor(checksum, descriptor), mem);
  }

  /**
   * Binding a stream that is already bound never writes: the same binding
   * answers OK, a different one `AlreadyExists`; the only change is the
   * caching done by the lookup.
   */
  lemma BindBoundStream(enabled: bool, keyOf: seq<bv8> -> Result<string>, schemas: Tiers<RecordedProtoDescriptor>,
                        assocs: Tiers<Association>, streamId: seq<bv8>, a: Association,
                        f1: Option<string>, f2: Option<string>, f3: Option<string>)
    requires GetKey(keyOf, enabled, assocs, streamId, f1).0.Ok? && GetKey(keyOf, enabled, assocs, streamId, f1).0.value.Some?
    ensures var (r, s', t') := Bind(enabled, keyOf, schemas, assocs, streamId, a, f1, f2, f3);
      s' == schemas && t' == GetKey(keyOf, enabled, assocs, streamId, f1).1 &&
      (if GetKey(keyOf, enabled, assocs, streamId, f1).0.value.value == a then r == Done(ALREADY_ASSOCIATED)
       else r.Failed? && r.failure.Code() == AlreadyExists)
  {
  }

  /** Binding an unbound stream to a package that is not registered answers `NotFound` and writes nothing. */
  lemma BindUnknownPackage(enabled: bool, keyOf: seq<bv8> -> Result<string>, schemas: Tiers<RecordedProtoDescriptor>,
                           assocs: Tiers<Association>, streamId: seq<bv8>, a: Association,
                           f1: Option<string>, f2: Option<string>, f3: Option<string>)
    requires GetKey(keyOf, enabled, assocs, streamId, f1).0 == Ok(None)
    requires GetKey(SchemaKey, enabled, schemas, a.protoPackage, f2).0 == Ok(None)
    ensures var (r, s', t') := Bind(enabled, keyOf, schemas, assocs, streamId, a, f1, f2, f3);
      r.Failed? && r.failure.Code() == NotFound && s' == schemas && t' == assocs
  {
  }

  /** After a successful bind the stream reads as bound to `a`, and binding it again the same way changes nothing. */
  lemma BindThenBindAgain(enabled: bool, keyOf: seq<bv8> -> Result<string>, schemas: Tiers<RecordedProtoDescriptor>,
                          assocs: Tiers<Association>, streamId: seq<bv8>, a: Association,
                          f1: Option<string>, f2: Option<string>, f3: Option<string>,
                          g1: Option<string>, g2: Option<string>, g3: Option<string>)
    requires Bind(enabled, keyOf, schemas, assocs, streamId, a, f1, f2, f3).0 == Done("")
    ensures var (_, s', t') := Bind(enabled, keyOf, schemas, assocs, streamId, a, f1, f2, f3);
      GetKey(keyOf, enabled, t', streamId, g1) == (Ok(Some(a)), t') &&
      Bind(enabled, keyOf, s', t', streamId, a, g1, g2, g3) == (Done(ALREADY_ASSOCIATED), s', t')
  {
    var t1 := GetKey(keyOf, enabled, assocs, streamId, f1).1;
    FetchAfterPut(AssociationRoundTrip, enabled, t1, keyOf(streamId).value, a, f3, g1);
  }

  /** Unbinding a stream that is not bound answers OK and changes nothing. */
  lemma UnbindUnbound(enabled: bool, keyOf: seq<bv8> -> Result<string>, assocs: Tiers<Association>, streamId: seq<bv8>,
                      f1: Option<string>, f2: Option<string>)
    requires GetKey(keyOf, enabled, assocs, streamId, f1).0 == Ok(None)
    ensures Unbind(enabled, keyOf, assocs, streamId, f1, f2) == (Done(""), assocs)
  {
  }

  /** A successful unbind leaves the stream unbound, so it can be bound afresh. */
  lemma UnbindThenLookup(enabled: bool, keyOf: seq<bv8> -> Result<string>, assocs: Tiers<Association>, streamId: seq<bv8>,
                         f1: Option<string>, f2: Option<string>)
    requires Unbind(enabled, keyOf, assocs, streamId, f1, f2).0 == Done("")
    ensures GetKey(keyOf, enabled, Unbind(enabled, keyOf, assocs, streamId, f1, f2).1, streamId, None).0 == Ok(None)
  {
    var t1 := GetKey(keyOf, enabled, assocs, streamId, f1).1;
    if GetKey(keyOf, enabled, assocs, streamId, f1).0.value.Some? {
      FetchAfterRemove(enabled, t1, keyOf(streamId).value, f2, None);
    }
  }

  /** `Server`: the two stores, the descriptor decoder and SHA-1. */
  class Server {
    const schemas: Store<string, RecordedProtoDescriptor>
    const streamToSchema: Store<seq<bv8>, Association>
    /** `proto.Unmarshal` into a `FileDescriptorSet`, reduced to the names of its files. */
    const fileNames: seq<bv8> -> Result<seq<string>>
    /** `sha1.Sum`. */
    const sha1: seq<bv8> -> seq<bv8>

    /** Both stores use the same client, and schemas are keyed by `SchemaKey`. */
    ghost predicate Valid()
    {
      schemas.transform == SchemaKey && schemas.roundTrip == SchemaRoundTrip &&
      streamToSchema.roundTrip == AssociationRoundTrip && schemas.enabled == streamToSchema.enabled
    }

    /** `NewServer`: fresh stores over the client's remote tier, the association store keyed by `streamIdTransform`. */
    constructor (enabled: bool, streamIdTransform: seq<bv8> -> Result<string>,
                 remoteSchemas: map<string, RecordedProtoDescriptor>, remoteAssocs: map<string, Association>,
                 fileNames: seq<bv8> -> Result<seq<string>>, sha1: seq<bv8> -> seq<bv8>)
      ensures Valid() && fresh(schemas) && fresh(streamToSchema)
      ensures streamToSchema.transform == streamIdTransform && streamToSchema.enabled == enabled
      ensures schemas.Contents() == Tiers(map[], remoteSchemas) && streamToSchema.Contents() == Tiers(map[], remoteAssocs)
      ensures this.fileNames == fileNames && this.sha1 == sha1
    {
      schemas := new Store(SchemaKey, SchemaRoundTrip, enabled, remoteSchemas);
      streamToSchema := new Store(streamIdTransform, AssociationRoundTrip, enabled, remoteAssocs);
      this.fileNames := fileNames;
      this.sha1 := sha1;
    }

    /** `UpsertProtoPackage`. */
    method UpsertProtoPackage(descriptor: seq<bv8>, getFault: Option<string>, setFault: Option<string>) returns (r: Reply)
      requires Valid()
      modifies schemas
      ensures (r, schemas.Contents()) ==
        Upsert(schemas.enabled, old(schemas.Contents()), descriptor, sha1(descriptor), fileNames(descriptor), getFault, setFault)
    {
      var checksum := sha1(descriptor);
      var fds := fileNames(descriptor);
      if fds.Err? {
        return Failed(Propagated(fds.error));
      }
      if |fds.value| == 0 {
        return IndexOutOfRange;
      }
      var protoPackageName := PackageName(fds.value[0]);
      if |fds.value| != 1 {
        return Failed(WrongFileCount(|fds.value|));
      }
      var current := schemas.Get(protoPackageName, getFault);
      if current.Err? {
        return Failed(Propagated(current.error));
      }
      if current.value.Some? && current.value.value.checksum == checksum {
        return Done(ALREADY_REGISTERED);
      }
      var err := schemas.Set(protoPackageName, RecordedProtoDescriptor(checksum, descriptor), setFault);
      if err.Some? {
        return Failed(Propagated(err.value));
      }
      return Done("");
    }

    /** `AddStreamToSchemaAssociation`. */
    method AddStreamToSchemaAssociation(streamId: seq<bv8>, a: Association,
                                        f1: Option<string>, f2: Option<string>, f3: Option<string>) returns (r: Reply)
      requires Valid()
      modifies schemas, streamToSchema
      ensures (r, schemas.Contents(), streamToSchema.Contents()) ==
        Bind(schemas.enabled, streamToSchema.transform, old(schemas.Contents()), old(streamToSchema.Contents()), streamId, a, f1, f2, f3)
    {
      var current := streamToSchema.Get(streamId, f1);
      if current.Err? {
        return Failed(Propagated(current.error));
      }
      if current.value.Some? {
        if current.value.value == a {
          return Done(ALREADY_ASSOCIATED);
        }
        return Failed(AlreadyBound);
      }
      var pkg := schemas.Get(a.protoPackage, f2);
      if pkg.Err? {
        return Failed(Propagated(pkg.error));
      }
      if pkg.value.None? {
        return Failed(PackageNotFound(a.protoPackage));
      }
      var err := streamToSchema.Set(streamId, a, f3);
      if err.Some? {
        return Failed(Propagated(err.value));
      }
      return Done("");
    }

    /** `DeleteStreamToSchemaAssociation`. */
    method DeleteStreamToSchemaAssociation(streamId: seq<bv8>, f1: Option<string>, f2: Option<string>) returns (r: Reply)
      requires Valid()
      modifies streamToSchema
      ensures (r, streamToSchema.Contents()) ==
        Unbind(streamToSchema.enabled, streamToSchema.transform, old(streamToSchema.Contents()), streamId, f1, f2)
    {
      var current := streamToSchema.Get(streamId, f1);
      if current.Err? {
        return Failed(Propagated(current.error));
      }
      if current.value.None? {
        return Done("");
      }
      var err := streamToSchema.Delete(streamId, f2);
      if err.Some? {
        return Failed(Propagated(err.value));
      }
      return Done("");
    }
  }
}
