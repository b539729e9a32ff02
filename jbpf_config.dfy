/**
 * A codelet set's configuration file (tools/jrtc-ctl/cmd/clicommon/jbpf_config.go):
 * the protobuf package paths are expanded and every referenced file must
 * exist, empty forward destinations default to "DestinationNone", channels
 * that forward data must say how it is serialised, and every linked map must
 * refer to a codelet loaded earlier in the list. Reading and decoding the
 * file, Go's `os.ExpandEnv` and `os.Stat` are parameters of the model.
 */
module JbpfCodeletConfig {
  import opened Wrappers

  const DEFAULT_FORWARDING_DESTINATION := "DestinationNone"

  datatype LinkedMap = LinkedMap(linkedCodeletName: string, linkedMapName: string, mapName: string)

  datatype Protobuf = Protobuf(messageName: string, packagePath: string)

  datatype Serde = Serde(filePath: string, protobuf: Option<Protobuf>)

  datatype Channel = Channel(forwardDestination: string, name: string, serde: Option<Serde>)

  datatype Codelet = Codelet(
    hookName: string, inChannels: seq<Channel>, linkedMaps: seq<LinkedMap>, name: string,
    codeletPath: string, outChannels: seq<Channel>, priority: Option<nat>, runtimeThreshold: Option<nat>)

  /** `JBPFCLIConfig`: a codelet set. */
  datatype CodeletSet = CodeletSet(codelets: seq<Codelet>, id: string)

  // ---------------------------------------------------------------- files and expansion

  /** What `os.Stat` says about a path. */
  datatype FileStat = Absent(err: string) | Dir | Regular

  /** `fileExists`: the error for a path that is not a regular file. */
  function FileError(path: string, stat: string -> FileStat): Option<string>
  {
    match stat(path)
    case Absent(e) => Some("error stating file \"" + path + "\"" + "\n" + e)
    case Dir => Some("expected \"" + path + "\" to be a file, got directory")
    case Regular => None
  }

  /**
   * One channel of `expandEnvVars`: the serialiser file (expanded only for
   * the check) must exist, and the protobuf package path is expanded in place
   * and must exist.
   */
  function ExpandChannel(ch: Channel, expand: string -> string, stat: string -> FileStat): Result<Channel>
  {
    if ch.serde.None? then Ok(ch)
    else match FileError(expand(ch.serde.value.filePath), stat)
      case Some(e) => Err(e)
      case None =>
        if ch.serde.value.protobuf.None? then Ok(ch)
        else
          var pb := ch.serde.value.protobuf.value;
          var path := expand(pb.packagePath);
          match FileError(path, stat)
          case Some(e) => Err(e)
          case None => Ok(ch.(serde := Some(ch.serde.value.(protobuf := Some(pb.(packagePath := path))))))
  }

  /** The channels in order, or the first channel's error. */
  function ExpandChannels(chs: seq<Channel>, expand: string -> string, stat: string -> FileStat): Result<seq<Channel>>
  {
    if chs == [] then Ok([])
    else match ExpandChannel(chs[0], expand, stat)
      case Err(e) => Err(e)
      case Ok(head) =>
        match ExpandChannels(chs[1..], expand, stat)
        case Err(e) => Err(e)
        case Ok(tail) => Ok([head] + tail)
  }

  /** One codelet: its (expanded) object file must exist, then its in- and out-channels. */
  function ExpandCodelet(c: Codelet, expand: string -> string, stat: string -> FileStat): Result<Codelet>
  {
    match FileError(expand(c.codeletPath), stat)
    case Some(e) => Err(e)
    case None =>
      match ExpandChannels(c.inChannels, expand, stat)
      case Err(e) => Err(e)
      case Ok(ins) =>
        match ExpandChannels(c.outChannels, expand, stat)
        case Err(e) => Err(e)
        case Ok(outs) => Ok(c.(inChannels := ins, outChannels := outs))
  }

  function ExpandCodelets(cs: seq<Codelet>, expand: string -> string, stat: string -> FileStat): Result<seq<Codelet>>
  {
    if cs == [] then Ok([])
    else match ExpandCodelets(cs[..|cs| - 1], expand, stat)
      case Err(e) => Err(e)
      case Ok(done) =>
        match ExpandCodelet(cs[|cs| - 1], expand, stat)
        case Err(e) => Err(e)
        case Ok(c) => Ok(done + [c])
  }

  lemma {:induction false} ExpandCodeletsErrSticks(cs: seq<Codelet>, expand: string -> string, stat: string -> FileStat, i: nat)
    requires i <= |cs| && ExpandCodelets(cs[..i], expand, stat).Err?
    ensures ExpandCodelets(cs, expand, stat) == ExpandCodelets(cs[..i], expand, stat)
    decreases |cs| - i
  {
    if i < |cs| {
      assert cs[..i + 1][..i] == cs[..i];
      ExpandCodeletsErrSticks(cs, expand, stat, i + 1);
    } else {
      assert cs[..i] == cs;
    }
  }

  /** `expandEnvVars`. */
  method ExpandEnvVars(cfg: CodeletSet, expand: string -> string, stat: string -> FileStat) returns (r: Result<CodeletSet>)
    ensures r == (match ExpandCodelets(cfg.codelets, expand, stat)
                  case Err(e) => Err(e)
                  case Ok(cs) => Ok(cfg.(codelets := cs)))
  {
    var done: seq<Codelet> := [];
    for i := 0 to |cfg.codelets|
      invariant ExpandCodelets(cfg.codelets[..i], expand, stat) == Ok(done)
    {
      assert cfg.codelets[..i + 1][..i] == cfg.codelets[..i];
      var c := ExpandCodelet(cfg.codelets[i], expand, stat);
      if c.Err? {
        ExpandCodeletsErrSticks(cfg.codelets, expand, stat, i + 1);
        return Err(c.error);
      }
      done := done + [c.value];
    }
    assert cfg.codelets[..|cfg.codelets|] == cfg.codelets;
    return Ok(cfg.(codelets := done));
  }

  /** Only protobuf package paths are rewritten: the serialiser file path and everything else are kept. */
  predicate SameButPackage(a: Channel, b: Channel)
  {
    a.forwardDestination == b.forwardDestination && a.name == b.name && a.serde.Some? == b.serde.Some? &&
    (a.serde.Some? ==> a.serde.value.filePath == b.serde.value.filePath &&
                       a.serde.value.protobuf.Some? == b.serde.value.protobuf.Some? &&
                       (a.serde.value.protobuf.Some? ==> a.serde.value.protobuf.value.messageName == b.serde.value.protobuf.value.messageName))
  }

  lemma {:induction false} ExpandChannelsKeep(chs: seq<Channel>, expand: string -> string, stat: string -> FileStat)
    requires ExpandChannels(chs, expand, stat).Ok?
    ensures var r := ExpandChannels(chs, expand, stat).value;
      |r| == |chs| && forall k :: 0 <= k < |chs| ==> SameButPackage(chs[k], r[k])
  {
    if chs != [] {
      ExpandChannelsKeep(chs[1..], expand, stat);
      var r := ExpandChannels(chs, expand, stat).value;
      forall k | 0 <= k < |chs|
        ensures SameButPackage(chs[k], r[k])
      {
        if k > 0 {
          assert chs[k] == chs[1..][k - 1];
        }
      }
    }
  }

  /**
   * Expansion keeps every codelet's object path and every serialiser file
   * path as written (the controller expands them itself), and every
   * channel's destination, name and serde shape.
   */
  lemma {:induction false} ExpandKeepsPaths(cs: seq<Codelet>, expand: string -> string, stat: string -> FileStat)
    requires ExpandCodelets(cs, expand, stat).Ok?
    ensures var r := ExpandCodelets(cs, expand, stat).value;
      |r| == |cs| &&
      forall i :: 0 <= i < |cs| ==>
        r[i].codeletPath == cs[i].codeletPath && r[i].name == cs[i].name && r[i].linkedMaps == cs[i].linkedMaps &&
        |r[i].inChannels| == |cs[i].inChannels| && |r[i].outChannels| == |cs[i].outChannels| &&
        (forall k :: 0 <= k < |cs[i].inChannels| ==> SameButPackage(cs[i].inChannels[k], r[i].inChannels[k])) &&
        (forall k :: 0 <= k < |cs[i].outChannels| ==> SameButPackage(cs[i].outChannels[k], r[i].outChannels[k]))
  {
    if cs != [] {
      var init := cs[..|cs| - 1];
      ExpandKeepsPaths(init, expand, stat);
      var last := cs[|cs| - 1];
      ExpandChannelsKeep(last.inChannels, expand, stat);
      ExpandChannelsKeep(last.outChannels, expand, stat);
      assert forall i :: 0 <= i < |init| ==> init[i] == cs[i];
    }
  }

  // ---------------------------------------------------------------- defaults

  function DefaultChannel(ch: Channel): Channel
  {
    if |ch.forwardDestination| == 0 then ch.(forwardDestination := DEFAULT_FORWARDING_DESTINATION) else ch
  }

  function DefaultChannels(chs: seq<Channel>): seq<Channel>
  {
    seq(|chs|, k requires 0 <= k < |chs| => DefaultChannel(chs[k]))
  }

  function DefaultCodelet(c: Codelet): Codelet
  {
    c.(inChannels := DefaultChannels(c.inChannels), outChannels := DefaultChannels(c.outChannels))
  }

  function Defaulted(cs: seq<Codelet>): seq<Codelet>
  {
    seq(|cs|, i requires 0 <= i < |cs| => DefaultCodelet(cs[i]))
  }

  /** The loop over one codelet's channels. */
  method DefaultDestinations(chs: seq<Channel>) returns (out: seq<Channel>)
    ensures out == DefaultChannels(chs)
  {
    out := chs;
    for k := 0 to |chs|
      invariant |out| == |chs|
      invariant forall j :: 0 <= j < k ==> out[j] == DefaultChannel(chs[j])
      invariant forall j :: k <= j < |chs| ==> out[j] == chs[j]
    {
      if |out[k].forwardDestination| == 0 {
        out := out[k := out[k].(forwardDestination := DEFAULT_FORWARDING_DESTINATION)];
      }
    }
  }

  /** `setDefaults`. */
  method SetDefaults(cfg: CodeletSet) returns (r: CodeletSet)
    ensures r == cfg.(codelets := Defaulted(cfg.codelets))
  {
    var cs := cfg.codelets;
    for i := 0 to |cs|
      invariant |cs| == |cfg.codelets|
      invariant forall j :: 0 <= j < i ==> cs[j] == DefaultCodelet(cfg.codelets[j])
      invariant forall j :: i <= j < |cs| ==> cs[j] == cfg.codelets[j]
    {
      var ins := DefaultDestinations(cs[i].inChannels);
      var outs := DefaultDestinations(cs[i].outChannels);
      cs := cs[i := cs[i].(inChannels := ins, outChannels := outs)];
    }
    return cfg.(codelets := cs);
  }

  /**
   * After the defaults every destination is non-empty, destinations that
   * were given are untouched, and applying the defaults again changes nothing.
   */
  lemma DefaultsFill(cs: seq<Codelet>)
    ensures forall i, k :: 0 <= i < |cs| && 0 <= k < |cs[i].inChannels| ==>
      var d := Defaulted(cs)[i].inChannels[k].forwardDestination;
      d != "" && (cs[i].inChannels[k].forwardDestination != "" ==> d == cs[i].inChannels[k].forwardDestination)
    ensures forall i, k :: 0 <= i < |cs| && 0 <= k < |cs[i].outChannels| ==>
      var d := Defaulted(cs)[i].outChannels[k].forwardDestination;
      d != "" && (cs[i].outChannels[k].forwardDestination != "" ==> d == cs[i].outChannels[k].forwardDestination)
    ensures Defaulted(Defaulted(cs)) == Defaulted(cs)
  {
    forall i | 0 <= i < |cs|
      ensures DefaultCodelet(DefaultCodelet(cs[i])) == DefaultCodelet(cs[i])
    {
      assert DefaultChannels(DefaultChannels(cs[i].inChannels)) == DefaultChannels(cs[i].inChannels);
      assert DefaultChannels(DefaultChannels(cs[i].outChannels)) == DefaultChannels(cs[i].outChannels);
    }
  }

  // ---------------------------------------------------------------- serialisation check

  /** A channel forwards data somewhere but does not say how it is serialised. */
  predicate Unserialised(ch: Channel)
  {
    ch.forwardDestination != DEFAULT_FORWARDING_DESTINATION && ch.serde.None?
  }

  predicate AnyUnserialised(chs: seq<Channel>)
  {
    exists k :: 0 <= k < |chs| && Unserialised(chs[k])
  }

  function SerdeMessage(c: Codelet): string
  {
    "codelet " + c.name + " has a non-none destination but no serde configuration"
  }

  /** The check as written: both loops go over the in-channels, so out-channels are never checked. */
  function SerdeErrorAsWritten(cs: seq<Codelet>): (r: Option<string>)
    ensures r.Some? ==> exists i :: 0 <= i < |cs| && AnyUnserialised(cs[i].inChannels) && r.value == SerdeMessage(cs[i])
  {
    if cs == [] then None
    else if AnyUnserialised(cs[0].inChannels) || AnyUnserialised(cs[0].inChannels) then Some(SerdeMessage(cs[0]))
    else SerdeErrorAsWritten(cs[1..])
  }

  /** The check as its comment states it: in- and out-channels alike. */
  function SerdeError(cs: seq<Codelet>): (r: Option<string>)
    ensures r.Some? ==>
              exists i :: 0 <= i < |cs| && (AnyUnserialised(cs[i].inChannels) || AnyUnserialised(cs[i].outChannels)) &&
                          r.value == SerdeMessage(cs[i])
  {
    if cs == [] then None
    else if AnyUnserialised(cs[0].inChannels) || AnyUnserialised(cs[0].outChannels) then Some(SerdeMessage(cs[0]))
    else SerdeError(cs[1..])
  }

  /** An out-channel forwarding to UDP without a serde. */
  function UdpOutWithoutSerde(): seq<Codelet>
  {
    [Codelet("hook", [], [], "codelet1", "codelet1.o", [Channel("DestinationUDP", "map1", None)], None, None)]
  }

  /** As written, an out-channel that forwards data without a serde is accepted. */
  lemma SerdeAsWrittenMissesOutChannels()
    ensures SerdeErrorAsWritten(UdpOutWithoutSerde()).None?
    ensures SerdeError(UdpOutWithoutSerde()) == Some(SerdeMessage(UdpOutWithoutSerde()[0]))
  {
    var cs := UdpOutWithoutSerde();
    assert "DestinationUDP"[11] != DEFAULT_FORWARDING_DESTINATION[11];
    assert Unserialised(cs[0].outChannels[0]);
    assert !AnyUnserialised(cs[0].inChannels);
  }

  /** The check as written accepts exactly the sets whose forwarding in-channels all have a serde. */
  lemma {:induction false} SerdeErrorAsWrittenIff(cs: seq<Codelet>)
    ensures SerdeErrorAsWritten(cs).None? <==> forall i :: 0 <= i < |cs| ==> !AnyUnserialised(cs[i].inChannels)
  {
    if cs != [] {
      SerdeErrorAsWrittenIff(cs[1..]);
      assert forall i :: 1 <= i < |cs| ==> cs[i] == cs[1..][i - 1];
    }
  }

  /** The check as written accepts whatever the corrected check accepts. */
  lemma {:induction false} SerdeAsWrittenWeaker(cs: seq<Codelet>)
    requires SerdeError(cs).None?
    ensures SerdeErrorAsWritten(cs).None?
  {
    SerdeErrorIff(cs);
    SerdeErrorAsWrittenIff(cs);
  }

  /** The corrected check accepts exactly the sets whose forwarding channels, in and out, all have a serde. */
  lemma {:induction false} SerdeErrorIff(cs: seq<Codelet>)
    ensures SerdeError(cs).None? <==>
      forall i :: 0 <= i < |cs| ==> !AnyUnserialised(cs[i].inChannels) && !AnyUnserialised(cs[i].outChannels)
  {
    if cs != [] {
      SerdeErrorIff(cs[1..]);
      assert forall i :: 1 <= i < |cs| ==> cs[i] == cs[1..][i - 1];
    }
  }

  /** The serialisation check, over in- and out-channels. */
  method CheckSerde(cs: seq<Codelet>) returns (err: Option<string>)
    ensures err == SerdeError(cs)
  {
    for i := 0 to |cs|
      invariant SerdeError(cs) == SerdeError(cs[i..])
    {
      assert cs[i..][1..] == cs[i + 1..];
      var badIn := HasUnserialised(cs[i].inChannels);
      var badOut := HasUnserialised(cs[i].outChannels);
      if badIn || badOut {
        return Some(SerdeMessage(cs[i]));
      }
    }
    return None;
  }

  /** One loop of the check: does a channel forward data without a serde? */
  method HasUnserialised(chs: seq<Channel>) returns (found: bool)
    ensures found <==> AnyUnserialised(chs)
  {
    for k := 0 to |chs|
      invariant forall j :: 0 <= j < k ==> !Unserialised(chs[j])
    {
      if chs[k].forwardDestination != DEFAULT_FORWARDING_DESTINATION && chs[k].serde.None? {
        return true;
      }
    }
    return false;
  }

  // ---------------------------------------------------------------- linked maps

  function SelfLinkMessage(c: Codelet): string
  {
    "codelet " + c.name + " has a linked map to itself"
  }

  function EarlyLinkMessage(c: Codelet, l: LinkedMap): string
  {
    "linked map " + l.linkedCodeletName + " for codelet " + c.name + " referenced before its loaded"
  }

  /** The names of the codelets before index `i`: those already queued. */
  function NamesBefore(cs: seq<Codelet>, i: nat): set<string>
    requires i <= |cs|
  {
    if i == 0 then {} else NamesBefore(cs, i - 1) + {cs[i - 1].name}
  }

  /** The first bad link of `c` from link `k` on. */
  function LinkErrorIn(c: Codelet, k: nat, queued: set<string>): Option<string>
    requires k <= |c.linkedMaps|
    decreases |c.linkedMaps| - k
  {
    if k == |c.linkedMaps| then None
    else if c.linkedMaps[k].linkedCodeletName == c.name then Some(SelfLinkMessage(c))
    else if c.linkedMaps[k].linkedCodeletName !in queued then Some(EarlyLinkMessage(c, c.linkedMaps[k]))
    else LinkErrorIn(c, k + 1, queued)
  }

  /** The first bad link of the codelets from index `i` on, the earlier ones being queued. */
  function LinkErrorAt(cs: seq<Codelet>, i: nat, queued: set<string>): (r: Option<string>)
    requires i <= |cs|
    ensures (forall j :: i <= j < |cs| ==> cs[j].linkedMaps == []) ==> r.None?
    decreases |cs| - i
  {
    if i == |cs| then None
    else match LinkErrorIn(cs[i], 0, queued)
      case Some(e) => Some(e)
      case None => LinkErrorAt(cs, i + 1, queued + {cs[i].name})
  }

  /** The linked-map check of `JBPFConfigFromYaml`. */
  method CheckLinkedMaps(cs: seq<Codelet>) returns (err: Option<string>)
    ensures err == LinkErrorAt(cs, 0, {})
  {
    var queued: set<string> := {};
    for i := 0 to |cs|
      invariant queued == NamesBefore(cs, i)
      invariant LinkErrorAt(cs, 0, {}) == LinkErrorAt(cs, i, queued)
    {
      var c := cs[i];
      for k := 0 to |c.linkedMaps|
        invariant LinkErrorIn(c, 0, queued) == LinkErrorIn(c, k, queued)
      {
        if c.linkedMaps[k].linkedCodeletName == c.name {
          return Some(SelfLinkMessage(c));
        }
        if c.linkedMaps[k].linkedCodeletName !in queued {
          return Some(EarlyLinkMessage(c, c.linkedMaps[k]));
        }
      }
      queued := queued + {c.name};
    }
    return None;
  }

  lemma {:induction false} NamesBeforeMembers(cs: seq<Codelet>, i: nat, x: string)
    requires i <= |cs|
    ensures x in NamesBefore(cs, i) <==> exists j :: 0 <= j < i && cs[j].name == x
  {
    if i > 0 {
      NamesBeforeMembers(cs, i - 1, x);
    }
  }

  /** Link `k` of codelet `i` names another codelet that appears earlier in the list. */
  predicate GoodLink(cs: seq<Codelet>, i: nat, k: nat)
    requires i < |cs| && k < |cs[i].linkedMaps|
  {
    var target := cs[i].linkedMaps[k].linkedCodeletName;
    target != cs[i].name && exists j :: 0 <= j < i && cs[j].name == target
  }

  predicate GoodLinksFrom(cs: seq<Codelet>, i: nat, k: nat)
    requires i < |cs|
  {
    forall k' :: k <= k' < |cs[i].linkedMaps| ==> GoodLink(cs, i, k')
  }

  lemma {:induction false} LinkErrorInNone(cs: seq<Codelet>, i: nat, k: nat)
    requires i < |cs| && k <= |cs[i].linkedMaps|
    ensures LinkErrorIn(cs[i], k, NamesBefore(cs, i)).None? <==> GoodLinksFrom(cs, i, k)
    decreases |cs[i].linkedMaps| - k
  {
    if k < |cs[i].linkedMaps| {
      LinkErrorInNone(cs, i, k + 1);
      NamesBeforeMembers(cs, i, cs[i].linkedMaps[k].linkedCodeletName);
      assert GoodLinksFrom(cs, i, k) <==> GoodLink(cs, i, k) && GoodLinksFrom(cs, i, k + 1);
    }
  }

  lemma {:induction false} LinkErrorAtNone(cs: seq<Codelet>, i: nat)
    requires i <= |cs|
    ensures LinkErrorAt(cs, i, NamesBefore(cs, i)).None? <==> forall i' :: i <= i' < |cs| ==> GoodLinksFrom(cs, i', 0)
    decreases |cs| - i
  {
    if i < |cs| {
      LinkErrorInNone(cs, i, 0);
      LinkErrorAtNone(cs, i + 1);
    }
  }

  /**
   * The check accepts a list exactly when every linked map names a
   * different codelet that appears strictly earlier in the list.
   */
  lemma LinksAcceptedIff(cs: seq<Codelet>)
    ensures LinkErrorAt(cs, 0, {}).None? <==>
      forall i, k :: 0 <= i < |cs| && 0 <= k < |cs[i].linkedMaps| ==> GoodLink(cs, i, k)
  {
    LinkErrorAtNone(cs, 0);
    assert NamesBefore(cs, 0) == {};
    if forall i, k :: 0 <= i < |cs| && 0 <= k < |cs[i].linkedMaps| ==> GoodLink(cs, i, k) {
      forall i' | 0 <= i' < |cs|
        ensures GoodLinksFrom(cs, i', 0)
      {
      }
    }
    if forall i' :: 0 <= i' < |cs| ==> GoodLinksFrom(cs, i', 0) {
      forall i, k | 0 <= i < |cs| && 0 <= k < |cs[i].linkedMaps|
        ensures GoodLink(cs, i, k)
      {
        assert GoodLinksFrom(cs, i, 0);
      }
    }
  }

  /** The error is about the first bad link in list order: the check reports codelet `i`'s link `k`. */
  lemma FirstBadLinkReported(cs: seq<Codelet>, i: nat, k: nat)
    requires i < |cs| && k < |cs[i].linkedMaps|
    requires forall i' :: 0 <= i' < i ==> GoodLinksFrom(cs, i', 0)
    requires forall k' :: 0 <= k' < k ==> GoodLink(cs, i, k')
    requires !GoodLink(cs, i, k)
    ensures LinkErrorAt(cs, 0, {}) ==
      Some(if cs[i].linkedMaps[k].linkedCodeletName == cs[i].name then SelfLinkMessage(cs[i])
           else EarlyLinkMessage(cs[i], cs[i].linkedMaps[k]))
  {
    ReachesCodelet(cs, i);
    ReachesLink(cs, i, k);
  }

  lemma {:induction false} ReachesCodelet(cs: seq<Codelet>, i: nat)
    requires i < |cs|
    requires forall i' :: 0 <= i' < i ==> GoodLinksFrom(cs, i', 0)
    ensures LinkErrorAt(cs, 0, {}) == LinkErrorAt(cs, i, NamesBefore(cs, i))
  {
    if i > 0 {
      ReachesCodelet(cs, i - 1);
      LinkErrorInNone(cs, i - 1, 0);
    }
  }

  lemma {:induction false} ReachesLink(cs: seq<Codelet>, i: nat, k: nat)
    requires i < |cs| && k < |cs[i].linkedMaps|
    requires forall k' :: 0 <= k' < k ==> GoodLink(cs, i, k')
    requires !GoodLink(cs, i, k)
    ensures LinkErrorAt(cs, i, NamesBefore(cs, i)) ==
      Some(if cs[i].linkedMaps[k].linkedCodeletName == cs[i].name then SelfLinkMessage(cs[i])
           else EarlyLinkMessage(cs[i], cs[i].linkedMaps[k]))
  {
    NamesBeforeMembers(cs, i, cs[i].linkedMaps[k].linkedCodeletName);
    LinkErrorInSkips(cs, i, 0, k);
  }

  lemma {:induction false} LinkErrorInSkips(cs: seq<Codelet>, i: nat, k0: nat, k: nat)
    requires i < |cs| && k0 <= k <= |cs[i].linkedMaps|
    requires forall k' :: k0 <= k' < k ==> GoodLink(cs, i, k')
    ensures LinkErrorIn(cs[i], k0, NamesBefore(cs, i)) == LinkErrorIn(cs[i], k, NamesBefore(cs, i))
    decreases k - k0
  {
    if k0 < k {
      NamesBeforeMembers(cs, i, cs[i].linkedMaps[k0].linkedCodeletName);
      assert GoodLink(cs, i, k0);
      LinkErrorInSkips(cs, i, k0 + 1, k);
    }
  }

  /** Codelet `i` has a linked map naming codelet `j`. */
  predicate LinksTo(cs: seq<Codelet>, i: nat, j: nat)
    requires i < |cs| && j < |cs|
  {
    exists k :: 0 <= k < |cs[i].linkedMaps| && cs[i].linkedMaps[k].linkedCodeletName == cs[j].name
  }

  predicate DistinctNames(cs: seq<Codelet>)
  {
    forall i, j :: 0 <= i < j < |cs| ==> cs[i].name != cs[j].name
  }

  /** A chain of codelets, each linking to the next. */
  predicate Chain(cs: seq<Codelet>, p: seq<nat>)
  {
    (forall m :: 0 <= m < |p| ==> p[m] < |cs|) &&
    forall m :: 0 <= m < |p| - 1 ==> LinksTo(cs, p[m], p[m + 1])
  }

  /**
   * With distinct names, an accepted list only links backwards, so every chain
   * of links ends strictly before it starts: no codelet links to itself
   * through any number of maps.
   */
  lemma {:induction false} AcceptedIsAcyclic(cs: seq<Codelet>, p: seq<nat>)
    requires LinkErrorAt(cs, 0, {}).None? && DistinctNames(cs)
    requires 2 <= |p| && Chain(cs, p)
    ensures p[|p| - 1] < p[0]
    decreases |p|
  {
    LinksAcceptedIff(cs);
    assert p[1] < p[0] by {
      var k :| 0 <= k < |cs[p[0]].linkedMaps| && cs[p[0]].linkedMaps[k].linkedCodeletName == cs[p[1]].name;
      assert GoodLink(cs, p[0], k);
      var j :| 0 <= j < p[0] && cs[j].name == cs[p[1]].name;
      assert j == p[1];
    }
    if |p| > 2 {
      AcceptedIsAcyclic(cs, p[1..]);
    }
  }

  /** The out-of-order example: `codelet2` links to `codelet1`, which comes after it. */
  lemma OutOfOrderRejected()
    ensures var c1 := Codelet("test1", [], [], "codelet1", "a.o", [], None, None);
      var c2 := Codelet("test2", [], [LinkedMap("codelet1", "p1_counter", "p2_counter")], "codelet2", "b.o", [], None, None);
      LinkErrorAt([c2, c1], 0, {}) == Some(EarlyLinkMessage(c2, c2.linkedMaps[0])) &&
      LinkErrorAt([c1, c2], 0, {}).None?
  {
    var c1 := Codelet("test1", [], [], "codelet1", "a.o", [], None, None);
    var c2 := Codelet("test2", [], [LinkedMap("codelet1", "p1_counter", "p2_counter")], "codelet2", "b.o", [], None, None);
    assert "codelet1"[7] != "codelet2"[7];
    assert LinkErrorIn(c2, 0, {}) == Some(EarlyLinkMessage(c2, c2.linkedMaps[0]));
    assert LinkErrorAt([c2, c1], 0, {}) == Some(EarlyLinkMessage(c2, c2.linkedMaps[0]));
    var cs := [c1, c2];
    LinksAcceptedIff(cs);
    assert GoodLink(cs, 1, 0) by {
      assert cs[0].name == cs[1].linkedMaps[0].linkedCodeletName;
    }
  }

  /** The loop example: each of two codelets links to the other; the first is reported. */
  lemma LoopRejected()
    ensures var c1 := Codelet("test1", [], [LinkedMap("codelet2", "p2_counter", "p2_counter")], "codelet1", "a.o", [], None, None);
      var c2 := Codelet("test2", [], [LinkedMap("codelet1", "p1_counter", "p2_counter")], "codelet2", "b.o", [], None, None);
      LinkErrorAt([c1, c2], 0, {}) == Some(EarlyLinkMessage(c1, c1.linkedMaps[0]))
  {
    var c1 := Codelet("test1", [], [LinkedMap("codelet2", "p2_counter", "p2_counter")], "codelet1", "a.o", [], None, None);
    assert "codelet1"[7] != "codelet2"[7];
    assert LinkErrorIn(c1, 0, {}) == Some(EarlyLinkMessage(c1, c1.linkedMaps[0]));
  }

  // ---------------------------------------------------------------- JBPFConfigFromYaml

  /** What reading and decoding the file gives. */
  datatype FileContents = Missing(err: string) | Directory | Unparsable(err: string) | Parsed(config: CodeletSet)

  /**
   * The serialisation check as written, or as corrected: either way it
   * rejects only sets the corrected check rejects.
   */
  function SerdeCheck(cs: seq<Codelet>, asWritten: bool): (r: Option<string>)
    ensures r.Some? ==> SerdeError(cs).Some?
    ensures !asWritten ==> r == SerdeError(cs)
  {
    if !asWritten then SerdeError(cs)
    else if SerdeError(cs).None? then SerdeAsWrittenWeaker(cs); SerdeErrorAsWritten(cs)
    else SerdeErrorAsWritten(cs)
  }

  /** The checks after decoding, with the serialisation check as written or as corrected. */
  function Checked(cfg: CodeletSet, expand: string -> string, stat: string -> FileStat, asWritten: bool): (r: Result<CodeletSet>)
    ensures r.Ok? ==> r.value.id == cfg.id && SerdeCheck(r.value.codelets, asWritten).None? && LinkErrorAt(r.value.codelets, 0, {}).None?
  {
    match ExpandCodelets(cfg.codelets, expand, stat)
    case Err(e) => Err(e)
    case Ok(expanded) =>
      var cs := Defaulted(expanded);
      match SerdeCheck(cs, asWritten)
      case Some(e) => Err(e)
      case None =>
        match LinkErrorAt(cs, 0, {})
        case Some(e) => Err(e)
        case None => Ok(cfg.(codelets := cs))
  }

  /**
   * `JBPFConfigFromYaml`, with the serialisation check as written or as
   * corrected: a configuration only from a decoded file, with its id, and
   * passing both checks.
   */
  function FromYamlResult(file: string, contents: FileContents, expand: string -> string, stat: string -> FileStat,
                          asWritten: bool): (r: Result<CodeletSet>)
    ensures r.Ok? ==> contents.Parsed? && r.value.id == contents.config.id
    ensures r.Ok? ==> SerdeCheck(r.value.codelets, asWritten).None? && LinkErrorAt(r.value.codelets, 0, {}).None?
    ensures contents.Directory? ==> r == Err("expected \"" + file + "\" to be a file, got directory")
  {
    match contents
    case Missing(e) => Err(e)
    case Directory => Err("expected \"" + file + "\" to be a file, got directory")
    case Unparsable(e) => Err(e)
    case Parsed(cfg) => Checked(cfg, expand, stat, asWritten)
  }

  /** `JBPFConfigFromYaml`, with the corrected serialisation check. */
  method JbpfConfigFromYaml(file: string, contents: FileContents, expand: string -> string, stat: string -> FileStat)
    returns (r: Result<CodeletSet>)
    ensures r == FromYamlResult(file, contents, expand, stat, false)
  {
    match contents {
      case Missing(e) => return Err(e);
      case Directory => return Err("expected \"" + file + "\" to be a file, got directory");
      case Unparsable(e) => return Err(e);
      case Parsed(cfg) =>
        var expanded := ExpandEnvVars(cfg, expand, stat);
        if expanded.Err? {
          return Err(expanded.error);
        }
        var defaulted := SetDefaults(expanded.value);
        var serde := CheckSerde(defaulted.codelets);
        if serde.Some? {
          return Err(serde.value);
        }
        var link := CheckLinkedMaps(defaulted.codelets);
        if link.Some? {
          return Err(link.value);
        }
        return Ok(defaulted);
    }
  }

  /**
   * An accepted codelet set has a destination on every channel, a serde on
   * every channel that forwards data, and only backward links to other codelets.
   */
  lemma FromYamlAccepted(file: string, contents: FileContents, expand: string -> string, stat: string -> FileStat)
    requires FromYamlResult(file, contents, expand, stat, false).Ok?
    ensures var cs := FromYamlResult(file, contents, expand, stat, false).value.codelets;
      (forall i :: 0 <= i < |cs| ==> !AnyUnserialised(cs[i].inChannels) && !AnyUnserialised(cs[i].outChannels)) &&
      (forall i, k :: 0 <= i < |cs| && 0 <= k < |cs[i].inChannels| ==> cs[i].inChannels[k].forwardDestination != "") &&
      (forall i, k :: 0 <= i < |cs| && 0 <= k < |cs[i].outChannels| ==> cs[i].outChannels[k].forwardDestination != "") &&
      (forall i, k :: 0 <= i < |cs| && 0 <= k < |cs[i].linkedMaps| ==> GoodLink(cs, i, k))
  {
    var cfg := contents.config;
    var expanded := ExpandCodelets(cfg.codelets, expand, stat).value;
    var cs := Defaulted(expanded);
    SerdeErrorIff(cs);
    LinksAcceptedIff(cs);
    DefaultsFill(expanded);
  }

  /**
   * What the loader as written guarantees of an accepted set: a destination
   * on every channel, a serde on every forwarding in-channel (out-channels
   * are not checked) and only backward links to other codelets.
   */
  lemma FromYamlAsWrittenAccepted(file: string, contents: FileContents, expand: string -> string, stat: string -> FileStat)
    requires FromYamlResult(file, contents, expand, stat, true).Ok?
    ensures var cs := FromYamlResult(file, contents, expand, stat, true).value.codelets;
      (forall i :: 0 <= i < |cs| ==> !AnyUnserialised(cs[i].inChannels)) &&
      (forall i, k :: 0 <= i < |cs| && 0 <= k < |cs[i].inChannels| ==> cs[i].inChannels[k].forwardDestination != "") &&
      (forall i, k :: 0 <= i < |cs| && 0 <= k < |cs[i].outChannels| ==> cs[i].outChannels[k].forwardDestination != "") &&
      (forall i, k :: 0 <= i < |cs| && 0 <= k < |cs[i].linkedMaps| ==> GoodLink(cs, i, k))
  {
    var cfg := contents.config;
    var expanded := ExpandCodelets(cfg.codelets, expand, stat).value;
    var cs := Defaulted(expanded);
    SerdeErrorAsWrittenIff(cs);
    LinksAcceptedIff(cs);
    DefaultsFill(expanded);
  }

  /** A set the corrected loader accepts is accepted as written too, with the same result. */
  lemma FromYamlAsWrittenAcceptsCorrected(file: string, contents: FileContents, expand: string -> string, stat: string -> FileStat)
    requires FromYamlResult(file, contents, expand, stat, false).Ok?
    ensures FromYamlResult(file, contents, expand, stat, true) == FromYamlResult(file, contents, expand, stat, false)
  {
    var expanded := ExpandCodelets(contents.config.codelets, expand, stat).value;
    SerdeAsWrittenWeaker(Defaulted(expanded));
  }
}
