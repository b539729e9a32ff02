/**
 * The control tool's configuration files (tools/jrtc-ctl/cmd/clicommon/config.go):
 * several YAML files are merged into one configuration, environment
 * variables are expanded, defaults are filled in and the device references
 * are validated. Reading and decoding a file, Go's `os.ExpandEnv` and
 * `time.ParseDuration` are parameters of the model.
 */
module CliConfig {
  import opened Wrappers
  import opened DecimalText

  const DEFAULT_APP_IOQ_SIZE := 1000
  const DEFAULT_IP := "127.0.0.1"
  /** The default deadline, period and runtime: zero. */
  const DEFAULT_DURATION := 0

  type u8 = x: int | 0 <= x < 0x100
  type u16 = x: int | 0 <= x < 0x1_0000

  /** A value of an app's `params` map: decoded JSON gives strings or other values (numbers, lists, maps). */
  datatype ParamValue = Text(s: string) | Other

  /**
   * An application entry. The `opt` fields are what the file gave (an IP as
   * its printed form); the last five are filled in by the defaults.
   */
  datatype App = App(
    name: string, path: string, appType: string, port: u16,
    optDeadline: Option<string>, optPeriod: Option<string>, optRuntime: Option<string>,
    optIoqSize: Option<int>, optIp: Option<string>,
    params: map<string, ParamValue>, modules: seq<string>,
    deadline: int, period: int, runtime: int, ioqSize: int, ip: string)

  datatype Decoder = Decoder(httpRelativePath: string, optIp: Option<string>, ip: string, port: u16, decoderType: string)

  datatype Device = Device(id: u8, optIp: Option<string>, ip: string, port: u16)

  datatype Codelet = Codelet(configFile: string, device: u8)

  datatype JbpfConfig = JbpfConfig(devices: seq<Device>, codelets: seq<Codelet>)

  /** `CLIConfig`; a missing `jbpf` section is `None` (a nil pointer). */
  datatype Config = Config(apps: seq<App>, decoders: seq<Decoder>, jbpf: Option<JbpfConfig>, name: string)

  function Devices(j: Option<JbpfConfig>): seq<Device>
  {
    if j.Some? then j.value.devices else []
  }

  function Codelets(j: Option<JbpfConfig>): seq<Codelet>
  {
    if j.Some? then j.value.codelets else []
  }

  // ---------------------------------------------------------------- merging

  /** `c` is `a` and `b` joined: every list left then right, a `jbpf` section, `a`'s name. */
  predicate Joined(a: Config, b: Config, c: Config)
  {
    c.apps == a.apps + b.apps && c.decoders == a.decoders + b.decoders &&
    c.jbpf.Some? && c.jbpf.value.devices == Devices(a.jbpf) + Devices(b.jbpf) &&
    c.jbpf.value.codelets == Codelets(a.jbpf) + Codelets(b.jbpf) && c.name == a.name
  }

  /** `mergeConfigs`. */
  function Merge(c1: Option<Config>, c2: Option<Config>): (r: Result<Option<Config>>)
    ensures c1.None? ==> r == Ok(c2)
    ensures c1.Some? && c2.None? ==> r == Ok(c1)
    ensures c1.Some? && c2.Some? ==> (r.Ok? <==> c1.value.name == c2.value.name)
    ensures c1.Some? && c2.Some? && r.Ok? ==> r.value.Some? && Joined(c1.value, c2.value, r.value.value)
  {
    match (c1, c2)
    case (None, _) => Ok(c2)
    case (_, None) => Ok(c1)
    case (Some(a), Some(b)) =>
      if a.name != b.name then Err("expected name \"" + a.name + "\", got \"" + b.name + "\"")
      else
        var jbpf := JbpfConfig(Devices(a.jbpf) + Devices(b.jbpf), Codelets(a.jbpf) + Codelets(b.jbpf));
        Ok(Some(Config(a.apps + b.apps, a.decoders + b.decoders, Some(jbpf), a.name)))
  }

  // ---------------------------------------------------------------- reading the files

  /** What reading and decoding one file gives. */
  datatype FileContents =
    | Missing(err: string)       // `os.Stat` or `os.ReadFile` failed
    | Directory
    | Unparsable(err: string)    // the YAML or the JSON round trip failed
    | Parsed(config: Config)

  datatype FileInput = FileInput(name: string, contents: FileContents)

  /** One iteration of the loop over the files. */
  function Step(out: Option<Config>, f: FileInput): Result<Option<Config>>
  {
    match f.contents
    case Missing(e) => Err(e)
    case Directory => Err("expected \"" + f.name + "\" to be a file, got directory")
    case Unparsable(e) => Err(e)
    case Parsed(c) => Merge(out, Some(c))
  }

  /** The configuration the loop has built after the files, or its first error. */
  function Gather(files: seq<FileInput>): (r: Result<Option<Config>>)
    ensures r.Ok? ==> AllParsed(files)
    ensures r.Ok? ==> (r.value.Some? <==> files != [])
  {
    if files == [] then Ok(None)
    else match Gather(files[..|files| - 1])
      case Err(e) => Err(e)
      case Ok(out) => Step(out, files[|files| - 1])
  }

  predicate AllParsed(files: seq<FileInput>)
  {
    forall k :: 0 <= k < |files| ==> files[k].contents.Parsed?
  }

  /** Every file was decoded and carries the first file's name. */
  predicate Consistent(files: seq<FileInput>)
  {
    AllParsed(files) &&
    forall k :: 0 <= k < |files| ==> files[k].contents.config.name == files[0].contents.config.name
  }

  /** The apps of all the files, in file order. */
  function AllApps(files: seq<FileInput>): seq<App>
    requires AllParsed(files)
  {
    if files == [] then [] else AllApps(files[..|files| - 1]) + files[|files| - 1].contents.config.apps
  }

  /** An error stays: once a prefix of the files fails, all of them fail with that error. */
  lemma {:induction false} GatherErrSticks(files: seq<FileInput>, i: nat)
    requires i <= |files| && Gather(files[..i]).Err?
    ensures Gather(files) == Gather(files[..i])
    decreases |files| - i
  {
    if i < |files| {
      assert files[..i + 1][..i] == files[..i];
      GatherErrSticks(files, i + 1);
    } else {
      assert files[..i] == files;
    }
  }

  /** The files are consistent exactly when all but the last are and the last was decoded with the first file's name. */
  lemma ConsistentSnoc(files: seq<FileInput>)
    requires |files| > 1
    ensures var last := files[|files| - 1];
      Consistent(files) <==>
      Consistent(files[..|files| - 1]) && last.contents.Parsed? && last.contents.config.name == files[0].contents.config.name
  {
    var init := files[..|files| - 1];
    assert init[0] == files[0];
    if Consistent(files) {
      forall k | 0 <= k < |init|
        ensures init[k].contents.Parsed? && init[k].contents.config.name == init[0].contents.config.name
      {
        assert init[k] == files[k];
      }
    }
  }

  /**
   * The files merge exactly when every one was decoded and all carry the same
   * name; the result has that name, all the apps in file order, and a `jbpf`
   * section unless there was a single file without one.
   */
  lemma {:induction false} GatherMerges(files: seq<FileInput>)
    requires |files| > 0
    ensures Gather(files).Ok? <==> Consistent(files)
    ensures Gather(files).Ok? ==>
      Gather(files).value.Some? &&
      var c := Gather(files).value.value;
      c.name == files[0].contents.config.name && c.apps == AllApps(files) &&
      (c.jbpf.None? <==> |files| == 1 && files[0].contents.config.jbpf.None?)
  {
    var init := files[..|files| - 1];
    if |files| == 1 {
      assert init == [];
    } else {
      GatherMerges(init);
      ConsistentSnoc(files);
      assert init[0] == files[0];
    }
  }

  // ---------------------------------------------------------------- environment variables

  function ExpandParam(v: ParamValue, expand: string -> string): ParamValue
  {
    match v
    case Text(s) => Text(expand(s))
    case Other => Other
  }

  /** The app's path, string params and modules expanded; the modules are expanded by two loops, so twice. */
  function ExpandApp(a: App, expand: string -> string): App
  {
    a.(path := expand(a.path),
       params := map k | k in a.params :: ExpandParam(a.params[k], expand),
       modules := seq(|a.modules|, i requires 0 <= i < |a.modules| => expand(expand(a.modules[i]))))
  }

  /**
   * `expandEnvVars`: `None` when the configuration has no `jbpf` section,
   * where the loop over `c.JBPF.JBPFCodelets` dereferences a nil pointer.
   */
  function ExpandEnvVars(c: Config, expand: string -> string): (r: Option<Config>)
    ensures r.Some? <==> c.jbpf.Some?
    ensures r.Some? ==>
      |r.value.apps| == |c.apps| && r.value.decoders == c.decoders && r.value.name == c.name && r.value.jbpf.Some? &&
      r.value.jbpf.value.devices == c.jbpf.value.devices && |r.value.jbpf.value.codelets| == |c.jbpf.value.codelets|
  {
    if c.jbpf.None? then None
    else
      var j := c.jbpf.value;
      var codelets := seq(|j.codelets|, i requires 0 <= i < |j.codelets| => j.codelets[i].(configFile := expand(j.codelets[i].configFile)));
      Some(c.(apps := seq(|c.apps|, i requires 0 <= i < |c.apps| => ExpandApp(c.apps[i], expand)),
              jbpf := Some(j.(codelets := codelets))))
  }

  /** Expansion touches only text: every app keeps its name, type, port and keys, and every codelet its device. */
  lemma ExpandKeepsShape(c: Config, expand: string -> string)
    requires c.jbpf.Some?
    ensures var r := ExpandEnvVars(c, expand).value;
      (forall i :: 0 <= i < |c.apps| ==>
        r.apps[i].name == c.apps[i].name && r.apps[i].port == c.apps[i].port &&
        r.apps[i].params.Keys == c.apps[i].params.Keys && |r.apps[i].modules| == |c.apps[i].modules|) &&
      forall i :: 0 <= i < |c.jbpf.value.codelets| ==> r.jbpf.value.codelets[i].device == c.jbpf.value.codelets[i].device
  {
  }

  // ---------------------------------------------------------------- defaults

  /** A duration given in the file, parsed, or the default. */
  function Duration(opt: Option<string>, parse: string -> Result<int>): Result<int>
  {
    match opt
    case None => Ok(DEFAULT_DURATION)
    case Some(s) => parse(s)
  }

  /** The IP given in the file when it prints as something, otherwise 127.0.0.1. */
  function ResolvedIp(opt: Option<string>): string
  {
    if opt.Some? && opt.value != "" then opt.value else DEFAULT_IP
  }

  function IoqSize(opt: Option<int>): int
  {
    if opt.None? then DEFAULT_APP_IOQ_SIZE else opt.value
  }

  /** One app with its defaults, or the first duration that does not parse (deadline, period, runtime). */
  function DefaultApp(a: App, parse: string -> Result<int>): Result<App>
  {
    match Duration(a.optDeadline, parse)
    case Err(e) => Err(e)
    case Ok(deadline) =>
      match Duration(a.optPeriod, parse)
      case Err(e) => Err(e)
      case Ok(period) =>
        match Duration(a.optRuntime, parse)
        case Err(e) => Err(e)
        case Ok(runtime) =>
          Ok(a.(deadline := deadline, period := period, runtime := runtime,
                ip := ResolvedIp(a.optIp), ioqSize := IoqSize(a.optIoqSize)))
  }

  /** The apps with their defaults, in order, or the first app's error. */
  function DefaultApps(apps: seq<App>, parse: string -> Result<int>): Result<seq<App>>
  {
    if apps == [] then Ok([])
    else match DefaultApps(apps[..|apps| - 1], parse)
      case Err(e) => Err(e)
      case Ok(done) =>
        match DefaultApp(apps[|apps| - 1], parse)
        case Err(e) => Err(e)
        case Ok(a) => Ok(done + [a])
  }

  function DefaultDecoder(d: Decoder): Decoder
  {
    d.(ip := ResolvedIp(d.optIp))
  }

  function DefaultDevice(d: Device): Device
  {
    d.(ip := ResolvedIp(d.optIp))
  }

  function Decoders(ds: seq<Decoder>): seq<Decoder>
  {
    seq(|ds|, i requires 0 <= i < |ds| => DefaultDecoder(ds[i]))
  }

  function DevicesOf(ds: seq<Device>): seq<Device>
  {
    seq(|ds|, i requires 0 <= i < |ds| => DefaultDevice(ds[i]))
  }

  /** What `setDefaults` makes of a configuration with a `jbpf` section. */
  function Defaulted(c: Config, parse: string -> Result<int>): Result<Config>
    requires c.jbpf.Some?
  {
    match DefaultApps(c.apps, parse)
    case Err(e) => Err(e)
    case Ok(apps) =>
      Ok(c.(apps := apps, decoders := Decoders(c.decoders), jbpf := Some(c.jbpf.value.(devices := DevicesOf(c.jbpf.value.devices)))))
  }

  lemma {:induction false} DefaultAppsErrSticks(apps: seq<App>, parse: string -> Result<int>, i: nat)
    requires i <= |apps| && DefaultApps(apps[..i], parse).Err?
    ensures DefaultApps(apps, parse) == DefaultApps(apps[..i], parse)
    decreases |apps| - i
  {
    if i < |apps| {
      assert apps[..i + 1][..i] == apps[..i];
      DefaultAppsErrSticks(apps, parse, i + 1);
    } else {
      assert apps[..i] == apps;
    }
  }

  /**
   * Defaulting fails exactly when some app's duration does not parse, and
   * otherwise gives each app, in order, its own values and the defaults.
   */
  lemma {:induction false} DefaultAppsFill(apps: seq<App>, parse: string -> Result<int>)
    ensures DefaultApps(apps, parse).Ok? <==> forall i :: 0 <= i < |apps| ==> DefaultApp(apps[i], parse).Ok?
    ensures DefaultApps(apps, parse).Ok? ==>
      |DefaultApps(apps, parse).value| == |apps| &&
      forall i :: 0 <= i < |apps| ==> DefaultApps(apps, parse).value[i] == DefaultApp(apps[i], parse).value
  {
    if apps != [] {
      var init := apps[..|apps| - 1];
      DefaultAppsFill(init, parse);
      assert forall i :: 0 <= i < |init| ==> init[i] == apps[i];
    }
  }

  /**
   * The defaults of an app that parses: ioq size 1000 when absent, IP
   * 127.0.0.1 unless a non-empty one is given, durations 0 when absent;
   * nothing else changes.
   */
  lemma DefaultAppFills(a: App, parse: string -> Result<int>)
    requires DefaultApp(a, parse).Ok?
    ensures var d := DefaultApp(a, parse).value;
      d.ioqSize == (if a.optIoqSize.Some? then a.optIoqSize.value else 1000) &&
      (d.ip == "127.0.0.1" <==> a.optIp.None? || a.optIp.value in {"", "127.0.0.1"}) &&
      (a.optDeadline.None? ==> d.deadline == 0) && (a.optDeadline.Some? ==> parse(a.optDeadline.value) == Ok(d.deadline)) &&
      (a.optPeriod.None? ==> d.period == 0) && (a.optPeriod.Some? ==> parse(a.optPeriod.value) == Ok(d.period)) &&
      (a.optRuntime.None? ==> d.runtime == 0) && (a.optRuntime.Some? ==> parse(a.optRuntime.value) == Ok(d.runtime)) &&
      d.(deadline := a.deadline, period := a.period, runtime := a.runtime, ip := a.ip, ioqSize := a.ioqSize) == a
  {
  }

  /** `setDefaults`, on a configuration with a `jbpf` section (it dereferences `c.JBPF`). */
  method SetDefaults(c: Config, parse: string -> Result<int>) returns (r: Result<Config>)
    requires c.jbpf.Some?
    ensures r == Defaulted(c, parse)
  {
    var apps: seq<App> := [];
    for i := 0 to |c.apps|
      invariant DefaultApps(c.apps[..i], parse) == Ok(apps)
    {
      assert c.apps[..i + 1][..i] == c.apps[..i];
      var app := DefaultAppOf(c.apps[i], parse);
      if app.Err? {
        DefaultAppsErrSticks(c.apps, parse, i + 1);
        return Err(app.error);
      }
      apps := apps + [app.value];
    }
    assert c.apps[..|c.apps|] == c.apps;
    var decoders := DefaultDecoders(c.decoders);
    var devices := DefaultDevices(c.jbpf.value.devices);
    r := Ok(c.(apps := apps, decoders := decoders, jbpf := Some(c.jbpf.value.(devices := devices))));
  }

  /** The body of the loop of `setDefaults` over the apps. */
  method DefaultAppOf(app: App, parse: string -> Result<int>) returns (r: Result<App>)
    ensures r == DefaultApp(app, parse)
  {
    var deadline := DEFAULT_DURATION;
    if app.optDeadline.Some? {
      var d := parse(app.optDeadline.value);
      if d.Err? {
        return Err(d.error);
      }
      deadline := d.value;
    }
    var period := DEFAULT_DURATION;
    if app.optPeriod.Some? {
      var d := parse(app.optPeriod.value);
      if d.Err? {
        return Err(d.error);
      }
      period := d.value;
    }
    var runtime := DEFAULT_DURATION;
    if app.optRuntime.Some? {
      var d := parse(app.optRuntime.value);
      if d.Err? {
        return Err(d.error);
      }
      runtime := d.value;
    }
    var ip := DEFAULT_IP;
    if app.optIp.Some? && app.optIp.value != "" {
      ip := app.optIp.value;
    }
    var ioqSize := if app.optIoqSize.None? then DEFAULT_APP_IOQ_SIZE else app.optIoqSize.value;
    return Ok(app.(deadline := deadline, period := period, runtime := runtime, ip := ip, ioqSize := ioqSize));
  }

  /** The loop of `setDefaults` over the decoders. */
  method DefaultDecoders(ds: seq<Decoder>) returns (out: seq<Decoder>)
    ensures out == Decoders(ds)
  {
    out := [];
    for i := 0 to |ds|
      invariant |out| == i && forall k :: 0 <= k < i ==> out[k] == DefaultDecoder(ds[k])
    {
      var ip := DEFAULT_IP;
      if ds[i].optIp.Some? && ds[i].optIp.value != "" {
        ip := ds[i].optIp.value;
      }
      out := out + [ds[i].(ip := ip)];
    }
  }

  /** The loop of `setDefaults` over the devices. */
  method DefaultDevices(ds: seq<Device>) returns (out: seq<Device>)
    ensures out == DevicesOf(ds)
  {
    out := [];
    for i := 0 to |ds|
      invariant |out| == i && forall k :: 0 <= k < i ==> out[k] == DefaultDevice(ds[k])
    {
      var ip := DEFAULT_IP;
      if ds[i].optIp.Some? && ds[i].optIp.value != "" {
        ip := ds[i].optIp.value;
      }
      out := out + [ds[i].(ip := ip)];
    }
  }

  // ---------------------------------------------------------------- validation

  datatype ValidationError =
    | DuplicateDevice(id: u8)
    | DeviceNotFound(id: u8)
    | UnusedDevices(ids: set<u8>)

  /** The error text; the unused ids are listed in Go's map order, which is left out. */
  function Message(e: ValidationError): string
  {
    match e
    case DuplicateDevice(id) => "device " + Decimal(id) + " already defined"
    case DeviceNotFound(id) => "device " + Decimal(id) + " not found"
    case UnusedDevices(_) => "unused devices: "
  }

  /** The ids of the devices. */
  function Ids(devices: seq<Device>): set<u8>
  {
    if devices == [] then {} else Ids(devices[..|devices| - 1]) + {devices[|devices| - 1].id}
  }

  /** The devices the codelets use. */
  function Used(codelets: seq<Codelet>): set<u8>
  {
    if codelets == [] then {} else Used(codelets[..|codelets| - 1]) + {codelets[|codelets| - 1].device}
  }

  /** The first device whose id was already seen, scanning in order. */
  function FirstDuplicate(devices: seq<Device>, seen: set<u8>): Option<u8>
  {
    if devices == [] then None
    else if devices[0].id in seen then Some(devices[0].id)
    else FirstDuplicate(devices[1..], seen + {devices[0].id})
  }

  /** The device of the first codelet that uses an undefined one. */
  function FirstMissing(codelets: seq<Codelet>, ids: set<u8>): (r: Option<u8>)
    ensures r.Some? ==> r.value !in ids && exists k :: 0 <= k < |codelets| && codelets[k].device == r.value
    ensures r.None? ==> forall k :: 0 <= k < |codelets| ==> codelets[k].device in ids
  {
    if codelets == [] then None
    else if codelets[0].device !in ids then Some(codelets[0].device)
    else FirstMissing(codelets[1..], ids)
  }

  /** What `validate` reports: the checks in the order it makes them. */
  function Validation(c: Config): (r: Option<ValidationError>)
    ensures r.Some? ==> c.jbpf.Some?
    ensures r.Some? && r.value.DeviceNotFound? ==> r.value.id !in Ids(c.jbpf.value.devices)
    ensures r.Some? && r.value.UnusedDevices? ==>
              r.value.ids != {} && r.value.ids <= Ids(c.jbpf.value.devices) && r.value.ids !! Used(c.jbpf.value.codelets)
  {
    if c.jbpf.None? then None
    else
      var devices := c.jbpf.value.devices;
      var codelets := c.jbpf.value.codelets;
      match FirstDuplicate(devices, {})
      case Some(id) => Some(DuplicateDevice(id))
      case None =>
        match FirstMissing(codelets, Ids(devices))
        case Some(id) => Some(DeviceNotFound(id))
        case None =>
          var unused := Ids(devices) - Used(codelets);
          if unused != {} then Some(UnusedDevices(unused)) else None
  }

  /** `validate`. */
  method Validate(c: Config) returns (err: Option<ValidationError>)
    ensures err == Validation(c)
  {
    if c.jbpf.Some? {
      var devices := c.jbpf.value.devices;
      var codelets := c.jbpf.value.codelets;
      var seen: set<u8> := {};
      var used: set<u8> := {};
      for i := 0 to |devices|
        invariant seen == Ids(devices[..i])
        invariant FirstDuplicate(devices, {}) == FirstDuplicate(devices[i..], seen)
      {
        assert devices[..i + 1][..i] == devices[..i];
        assert devices[i..][1..] == devices[i + 1..];
        if devices[i].id in seen {
          return Some(DuplicateDevice(devices[i].id));
        }
        seen := seen + {devices[i].id};
      }
      assert devices[..|devices|] == devices;
      for i := 0 to |codelets|
        invariant used == Used(codelets[..i])
        invariant FirstMissing(codelets, seen) == FirstMissing(codelets[i..], seen)
      {
        assert codelets[..i + 1][..i] == codelets[..i];
        assert codelets[i..][1..] == codelets[i + 1..];
        used := used + {codelets[i].device};
        if codelets[i].device !in seen {
          return Some(DeviceNotFound(codelets[i].device));
        }
      }
      assert codelets[..|codelets|] == codelets;
      var unused := seen - used;
      if |unused| > 0 {
        return Some(UnusedDevices(unused));
      }
    }
    return None;
  }

  predicate DistinctIds(devices: seq<Device>)
  {
    forall i, j :: 0 <= i < j < |devices| ==> devices[i].id != devices[j].id
  }

  /** Every codelet uses a defined device. */
  predicate AllDefined(devices: seq<Device>, codelets: seq<Codelet>)
  {
    forall k :: 0 <= k < |codelets| ==> exists j :: 0 <= j < |devices| && devices[j].id == codelets[k].device
  }

  /** Every defined device is used by some codelet. */
  predicate AllUsed(devices: seq<Device>, codelets: seq<Codelet>)
  {
    forall j :: 0 <= j < |devices| ==> exists k :: 0 <= k < |codelets| && codelets[k].device == devices[j].id
  }

  lemma {:induction false} IdsMembers(devices: seq<Device>, x: u8)
    ensures x in Ids(devices) <==> exists k :: 0 <= k < |devices| && devices[k].id == x
  {
    if devices != [] {
      var init := devices[..|devices| - 1];
      IdsMembers(init, x);
      if exists k :: 0 <= k < |init| && init[k].id == x {
        var k :| 0 <= k < |init| && init[k].id == x;
        assert devices[k].id == x;
      }
      if exists k :: 0 <= k < |devices| && devices[k].id == x {
        var k :| 0 <= k < |devices| && devices[k].id == x;
        if k < |init| {
          assert init[k].id == x;
        }
      }
    }
  }

  lemma {:induction false} UsedMembers(codelets: seq<Codelet>, x: u8)
    ensures x in Used(codelets) <==> exists k :: 0 <= k < |codelets| && codelets[k].device == x
  {
    if codelets != [] {
      var init := codelets[..|codelets| - 1];
      UsedMembers(init, x);
      if exists k :: 0 <= k < |init| && init[k].device == x {
        var k :| 0 <= k < |init| && init[k].device == x;
        assert codelets[k].device == x;
      }
      if exists k :: 0 <= k < |codelets| && codelets[k].device == x {
        var k :| 0 <= k < |codelets| && codelets[k].device == x;
        if k < |init| {
          assert init[k].device == x;
        }
      }
    }
  }

  /** The scan finds no duplicate exactly when the ids are distinct and none was seen before. */
  lemma {:induction false} FirstDuplicateNone(devices: seq<Device>, seen: set<u8>)
    ensures FirstDuplicate(devices, seen).None? <==>
      DistinctIds(devices) && forall k :: 0 <= k < |devices| ==> devices[k].id !in seen
  {
    if devices != [] {
      var rest := devices[1..];
      FirstDuplicateNone(rest, seen + {devices[0].id});
      if DistinctIds(devices) && (forall k :: 0 <= k < |devices| ==> devices[k].id !in seen) {
        assert DistinctIds(rest) by {
          forall i, j | 0 <= i < j < |rest|
            ensures rest[i].id != rest[j].id
          {
            assert rest[i] == devices[i + 1] && rest[j] == devices[j + 1];
          }
        }
        forall k | 0 <= k < |rest|
          ensures rest[k].id !in seen + {devices[0].id}
        {
          assert rest[k] == devices[k + 1];
        }
      }
      if FirstDuplicate(devices, seen).None? {
        forall i, j | 0 <= i < j < |devices|
          ensures devices[i].id != devices[j].id
        {
          if i == 0 {
            assert devices[j] == rest[j - 1];
          } else {
            assert devices[i] == rest[i - 1] && devices[j] == rest[j - 1];
          }
        }
        forall k | 0 <= k < |devices|
          ensures devices[k].id !in seen
        {
          if k > 0 {
            assert devices[k] == rest[k - 1];
          }
        }
      }
    }
  }

  lemma {:induction false} FirstMissingNone(codelets: seq<Codelet>, ids: set<u8>)
    ensures FirstMissing(codelets, ids).None? <==> forall k :: 0 <= k < |codelets| ==> codelets[k].device in ids
  {
    if codelets != [] {
      FirstMissingNone(codelets[1..], ids);
      assert forall k :: 1 <= k < |codelets| ==> codelets[k] == codelets[1..][k - 1];
    }
  }

  /**
   * A configuration validates exactly when it has no `jbpf` section, or its
   * device ids are distinct, every codelet uses a defined device, and every
   * defined device is used by some codelet.
   */
  lemma ValidIff(c: Config)
    ensures Validation(c).None? <==>
      c.jbpf.None? ||
      (DistinctIds(c.jbpf.value.devices) && AllDefined(c.jbpf.value.devices, c.jbpf.value.codelets) &&
       AllUsed(c.jbpf.value.devices, c.jbpf.value.codelets))
  {
    if c.jbpf.Some? {
      var devices := c.jbpf.value.devices;
      var codelets := c.jbpf.value.codelets;
      FirstDuplicateNone(devices, {});
      AllDefinedIff(devices, codelets);
      AllUsedIff(devices, codelets);
    }
  }

  lemma AllDefinedIff(devices: seq<Device>, codelets: seq<Codelet>)
    ensures FirstMissing(codelets, Ids(devices)).None? <==> AllDefined(devices, codelets)
  {
    FirstMissingNone(codelets, Ids(devices));
    forall k | 0 <= k < |codelets|
      ensures codelets[k].device in Ids(devices) <==> exists j :: 0 <= j < |devices| && devices[j].id == codelets[k].device
    {
      IdsMembers(devices, codelets[k].device);
    }
  }

  lemma AllUsedIff(devices: seq<Device>, codelets: seq<Codelet>)
    ensures Ids(devices) - Used(codelets) == {} <==> AllUsed(devices, codelets)
  {
    if AllUsed(devices, codelets) {
      forall x | x in Ids(devices)
        ensures x in Used(codelets)
      {
        IdsMembers(devices, x);
        UsedMembers(codelets, x);
      }
      assert Ids(devices) - Used(codelets) == {};
    }
    if Ids(devices) - Used(codelets) == {} {
      forall j | 0 <= j < |devices|
        ensures exists k :: 0 <= k < |codelets| && codelets[k].device == devices[j].id
      {
        IdsMembers(devices, devices[j].id);
        assert devices[j].id in Used(codelets);
        UsedMembers(codelets, devices[j].id);
      }
    }
  }

  // ---------------------------------------------------------------- device map

  /** The key of a device in the device map: `"%s:%d"` of its IP and port. */
  function Address(d: Device): string
  {
    d.ip + ":" + Decimal(d.port)
  }

  /** The device map after the devices, in order. */
  function DeviceMap(devices: seq<Device>): (r: map<string, u8>)
    ensures |r| <= |devices|
    ensures devices != [] ==> var last := devices[|devices| - 1]; Address(last) in r && r[Address(last)] == last.id
  {
    if devices == [] then map[]
    else DeviceMap(devices[..|devices| - 1])[Address(devices[|devices| - 1]) := devices[|devices| - 1].id]
  }

  /** `JBPFConfig.GetDeviceMap`. */
  method GetDeviceMap(j: JbpfConfig) returns (out: map<string, u8>)
    ensures out == DeviceMap(j.devices)
  {
    out := map[];
    for i := 0 to |j.devices|
      invariant out == DeviceMap(j.devices[..i])
    {
      assert j.devices[..i + 1][..i] == j.devices[..i];
      out := out[Address(j.devices[i]) := j.devices[i].id];
    }
    assert j.devices[..|j.devices|] == j.devices;
  }

  /** Device `k` is the last one with address `key`. */
  predicate LastWith(devices: seq<Device>, k: nat, key: string)
    requires k < |devices|
  {
    Address(devices[k]) == key && forall l :: k < l < |devices| ==> Address(devices[l]) != key
  }

  /**
   * An address is a key exactly when some device has it, and it maps to the
   * id of the last device with that address.
   */
  lemma {:induction false} DeviceMapLastWins(devices: seq<Device>, key: string)
    ensures key in DeviceMap(devices) <==> exists k :: 0 <= k < |devices| && Address(devices[k]) == key
    ensures forall k :: 0 <= k < |devices| && LastWith(devices, k, key) ==> DeviceMap(devices)[key] == devices[k].id
  {
    if devices != [] {
      var init := devices[..|devices| - 1];
      DeviceMapLastWins(init, key);
      assert forall k :: 0 <= k < |init| ==> init[k] == devices[k];
    }
  }

  // ---------------------------------------------------------------- FromYamls

  datatype Outcome =
    | Loaded(config: Config)
    | Failed(err: string)
    | Panicked     // a nil pointer is dereferenced

  function Join(parts: seq<string>, sep: string): string
  {
    if parts == [] then "" else if |parts| == 1 then parts[0] else parts[0] + sep + Join(parts[1..], sep)
  }

  function Names(files: seq<FileInput>): string
  {
    Join(seq(|files|, i requires 0 <= i < |files| => files[i].name), ", ")
  }

  /** What `FromYamls` returns. */
  function FromYamlsResult(files: seq<FileInput>, expand: string -> string, parse: string -> Result<int>): Outcome
  {
    if files == [] then Failed("no files provided")
    else match Gather(files)
      case Err(e) => Failed(e)
      case Ok(None) => Panicked
      case Ok(Some(c)) =>
        match ExpandEnvVars(c, expand)
        case None => Panicked
        case Some(c1) =>
          match Defaulted(c1, parse)
          case Err(e) => Failed(e + "\n" + "failed to set defaults for " + Names(files))
          case Ok(c2) =>
            match Validation(c2)
            case Some(v) => Failed(Message(v) + "\n" + "failed to validate " + Names(files))
            case None => Loaded(c2)
  }

  /** `FromYamls`, over what reading and decoding each file gives. */
  method FromYamls(files: seq<FileInput>, expand: string -> string, parse: string -> Result<int>) returns (r: Outcome)
    ensures r == FromYamlsResult(files, expand, parse)
  {
    if |files| == 0 {
      return Failed("no files provided");
    }
    var out: Option<Config> := None;
    for i := 0 to |files|
      invariant Gather(files[..i]) == Ok(out)
    {
      assert files[..i + 1][..i] == files[..i];
      var step := Step(out, files[i]);
      if step.Err? {
        GatherErrSticks(files, i + 1);
        return Failed(step.error);
      }
      out := step.value;
    }
    assert files[..|files|] == files;
    if out.None? {
      return Panicked;
    }
    var expanded := ExpandEnvVars(out.value, expand);
    if expanded.None? {
      return Panicked;
    }
    var defaulted := SetDefaults(expanded.value, parse);
    if defaulted.Err? {
      return Failed(defaulted.error + "\n" + "failed to set defaults for " + Names(files));
    }
    var invalid := Validate(defaulted.value);
    if invalid.Some? {
      return Failed(Message(invalid.value) + "\n" + "failed to validate " + Names(files));
    }
    return Loaded(defaulted.value);
  }

  /**
   * Loading panics exactly when there is a single file, it decodes, and it
   * has no `jbpf` section: with two or more files the merge always adds one.
   */
  lemma FromYamlsPanicsIff(files: seq<FileInput>, expand: string -> string, parse: string -> Result<int>)
    ensures FromYamlsResult(files, expand, parse) == Panicked <==>
      |files| == 1 && files[0].contents.Parsed? && files[0].contents.config.jbpf.None?
  {
    if |files| > 0 {
      GatherMerges(files);
      if |files| == 1 && files[0].contents.Parsed? {
        assert Consistent(files);
      }
    }
  }

  /**
   * A loaded configuration carries the common name and every file's apps in
   * file order, each with its defaults; its device ids are distinct, and
   * its codelets use exactly the defined devices.
   */
  lemma FromYamlsLoaded(files: seq<FileInput>, expand: string -> string, parse: string -> Result<int>)
    requires FromYamlsResult(files, expand, parse).Loaded?
    ensures var c := FromYamlsResult(files, expand, parse).config;
      Consistent(files) && c.name == files[0].contents.config.name &&
      |c.apps| == |AllApps(files)| &&
      (forall i :: 0 <= i < |c.apps| ==> c.apps[i].name == AllApps(files)[i].name && c.apps[i].ioqSize == IoqSize(AllApps(files)[i].optIoqSize)) &&
      c.jbpf.Some? && DistinctIds(c.jbpf.value.devices) &&
      AllDefined(c.jbpf.value.devices, c.jbpf.value.codelets) && AllUsed(c.jbpf.value.devices, c.jbpf.value.codelets)
  {
    ValidIff(FromYamlsResult(files, expand, parse).config);
    GatherMerges(files);
    var c := Gather(files).value.value;
    var c1 := ExpandEnvVars(c, expand).value;
    ExpandKeepsShape(c, expand);
    DefaultAppsFill(c1.apps, parse);
  }
}
