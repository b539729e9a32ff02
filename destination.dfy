/**
 * Router destinations as the Go bindings name them
 * (tools/jrtc-ctl/jrtcbindings/router_destination.go): a `uint8` enum with
 * three named values, two spellings per name, and the reverse table the
 * package `init` builds.
 */
module RouterDestination {
  import opened Wrappers

  /** `Destination` is a `uint8`. */
  newtype Destination = x: int | 0 <= x < 0x100

  const DESTINATION_ANY: Destination := 0x7F
  const DESTINATION_NONE: Destination := 0x01
  const DESTINATION_UDP: Destination := 0x02

  /** `DefaultDestination`. */
  const DEFAULT_DESTINATION: Destination := DESTINATION_NONE

  const NAME_ANY := "DestinationAny"
  const NAME_NONE := "DestinationNone"
  const NAME_UDP := "DestinationUDP"
  const ALT_ANY := "JRTC_ROUTER_DEST_ANY"
  const ALT_NONE := "JRTC_ROUTER_DEST_NONE"
  const ALT_UDP := "JRTC_ROUTER_DEST_UDP"

  /** `destinationFromString[val]`: the canonical names. */
  function FromName(val: string): Option<Destination>
  {
    if val == NAME_ANY then Some(DESTINATION_ANY)
    else if val == NAME_NONE then Some(DESTINATION_NONE)
    else if val == NAME_UDP then Some(DESTINATION_UDP)
    else None
  }

  /** `destinationFromStringAlt[val]`: the names of the C constants. */
  function FromAltName(val: string): Option<Destination>
  {
    if val == ALT_ANY then Some(DESTINATION_ANY)
    else if val == ALT_NONE then Some(DESTINATION_NONE)
    else if val == ALT_UDP then Some(DESTINATION_UDP)
    else None
  }

  /** The keys of `destinationFromString`. */
  const NAMES: set<string> := {NAME_ANY, NAME_NONE, NAME_UDP}

  /** The three named destinations. */
  predicate Named(d: Destination)
  {
    d == DESTINATION_ANY || d == DESTINATION_NONE || d == DESTINATION_UDP
  }

  /** The canonical name of a named destination: the reverse of `FromName`. */
  function NameOf(d: Destination): string
    requires Named(d)
  {
    if d == DESTINATION_ANY then NAME_ANY else if d == DESTINATION_NONE then NAME_NONE else NAME_UDP
  }

  /** The six names are distinct. */
  lemma NamesDistinct()
    ensures NAME_ANY != NAME_NONE && NAME_ANY != NAME_UDP && NAME_NONE != NAME_UDP
    ensures ALT_ANY != ALT_NONE && ALT_ANY != ALT_UDP && ALT_NONE != ALT_UDP
    ensures |NAMES| == 3
  {
    assert NAME_ANY[11] != NAME_UDP[11];
    assert |NAME_ANY| != |NAME_NONE| && |NAME_UDP| != |NAME_NONE|;
    assert ALT_ANY[17] != ALT_UDP[17];
    assert |ALT_ANY| != |ALT_NONE| && |ALT_UDP| != |ALT_NONE|;
  }

  /** `FromName` and `NameOf` are inverse: the reverse table is well defined. */
  lemma NameOfFromName(val: string)
    ensures FromName(val).Some? <==> val in NAMES
    ensures FromName(val).Some? ==> Named(FromName(val).value) && NameOf(FromName(val).value) == val
  {
    NamesDistinct();
  }

  lemma FromNameNameOf(d: Destination)
    requires Named(d)
    ensures NameOf(d) in NAMES && FromName(NameOf(d)) == Some(d)
  {
    NamesDistinct();
  }

  /** The reverse table built from the entries `ps`, later entries overwriting earlier ones. */
  function Reverse(ps: seq<(string, Destination)>): map<Destination, string>
  {
    if ps == [] then map[] else Reverse(ps[..|ps| - 1])[ps[|ps| - 1].1 := ps[|ps| - 1].0]
  }

  /** An enumeration of the entries of `destinationFromString`, each once, in some order. */
  ghost predicate Enumerates(ps: seq<(string, Destination)>)
  {
    |ps| == |NAMES| && forall p :: p in ps <==> p.0 in NAMES && FromName(p.0) == Some(p.1)
  }

  /**
   * The package `init`: walks `destinationFromString` in the order the map
   * yields its entries (`entries`, which Go leaves unspecified), recording
   * each value's name in `destinationToString` and appending each name to
   * `AllDestinationsStr`.
   */
  method Init(entries: seq<(string, Destination)>) returns (toString: map<Destination, string>, all: seq<string>)
    requires Enumerates(entries)
    ensures toString == Reverse(entries)
    ensures |all| == |entries| && forall i :: 0 <= i < |all| ==> all[i] == entries[i].0
  {
    toString := map[];
    all := [];
    for i := 0 to |entries|
      invariant toString == Reverse(entries[..i])
      invariant |all| == i && forall j :: 0 <= j < i ==> all[j] == entries[j].0
    {
      var (strVal, routerVal) := entries[i];
      assert entries[..i + 1][..i] == entries[..i];
      toString := toString[routerVal := strVal];
      all := all + [strVal];
    }
    assert entries[..|entries|] == entries;
  }

  /** Whatever the order, `init` builds the reverse of `FromName` and lists the three names. */
  lemma {:induction false} ReverseOfEnumeration(ps: seq<(string, Destination)>)
    requires Enumerates(ps)
    ensures forall d :: d in Reverse(ps) <==> Named(d)
    ensures forall d :: d in Reverse(ps) ==> Reverse(ps)[d] == NameOf(d)
    ensures forall s :: s in NAMES <==> exists i :: 0 <= i < |ps| && ps[i].0 == s
  {
    forall p | p in ps
      ensures Named(p.1) && NameOf(p.1) == p.0
    {
      NameOfFromName(p.0);
    }
    ReverseEntries(ps);
    forall d | Named(d)
      ensures d in Reverse(ps)
    {
      FromNameNameOf(d);
      assert (NameOf(d), d) in ps;
    }
    forall s | s in NAMES
      ensures exists i :: 0 <= i < |ps| && ps[i].0 == s
    {
      NameOfFromName(s);
      assert (s, FromName(s).value) in ps;
    }
  }

  /** A key of `Reverse(ps)` comes from an entry, and holds the name of the last such entry. */
  lemma {:induction false} ReverseEntries(ps: seq<(string, Destination)>)
    requires forall p :: p in ps ==> Named(p.1) && NameOf(p.1) == p.0
    ensures forall d :: d in Reverse(ps) <==> exists p :: p in ps && p.1 == d
    ensures forall d :: d in Reverse(ps) ==> Reverse(ps)[d] == NameOf(d)
  {
    if ps != [] {
      var init := ps[..|ps| - 1];
      assert forall p :: p in init ==> p in ps;
      ReverseEntries(init);
      assert forall p :: p in ps <==> p in init || p == ps[|ps| - 1];
    }
  }

  /** The error `DestinationFromString` returns for an unknown name. */
  function UnrecognizedDestination(val: string): string
  {
    "unrecognized jrt-controller router destination: \"" + val + "\""
  }

  /** `DestinationFromString`: the canonical names first, then the C names; otherwise `DestinationNone` and an error. */
  function DestinationFromString(val: string): (r: (Destination, Option<string>))
    ensures r.1.None? <==> FromName(val).Some? || FromAltName(val).Some?
    ensures r.1.None? ==> Named(r.0)
    ensures r.1.Some? ==> r.0 == DESTINATION_NONE && r.1.value == UnrecognizedDestination(val)
  {
    match FromName(val)
    case Some(d) => (d, None)
    case None =>
      match FromAltName(val)
      case Some(d) => (d, None)
      case None => (DESTINATION_NONE, Some(UnrecognizedDestination(val)))
  }

  /** `Destination.String`: the canonical name, or "" for an unnamed value (a miss in `destinationToString`). */
  function DestinationString(d: Destination): (s: string)
    ensures s == "" <==> !Named(d)
    ensures s != "" ==> s == NameOf(d)
  {
    if Named(d) then NameOf(d) else ""
  }

  /** Printing a named destination and reading it back gives it again. */
  lemma FromStringOfString(d: Destination)
    requires Named(d)
    ensures DestinationFromString(DestinationString(d)) == (d, None)
  {
    FromNameNameOf(d);
  }

  /** Every accepted name, in either spelling, prints as the canonical name of what it denotes. */
  lemma StringOfFromString(val: string)
    requires DestinationFromString(val).1.None?
    ensures DestinationFromString(DestinationString(DestinationFromString(val).0)).0 == DestinationFromString(val).0
  {
    FromStringOfString(DestinationFromString(val).0);
  }

  /** The two spellings name the same three values, each name its own. */
  lemma SpellingsAgree(d: Destination)
    ensures Named(d) <==> exists s :: FromName(s) == Some(d)
    ensures Named(d) <==> exists s :: FromAltName(s) == Some(d)
  {
    NamesDistinct();
    if Named(d) {
      var alt := if d == DESTINATION_ANY then ALT_ANY else if d == DESTINATION_NONE then ALT_NONE else ALT_UDP;
      assert FromAltName(alt) == Some(d);
      FromNameNameOf(d);
    }
  }
}
