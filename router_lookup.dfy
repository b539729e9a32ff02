/**
 * How the router finds the apps an incoming stream id is for
 * (src/router/jrtc_router.c): the 16 wildcard variants it probes in the
 * request table, the union of the app sets it finds, and the power-of-two
 * rounding that sizes each app's ring.
 */
module RouterLookup {
  import opened StreamIdCodec

  /** The request table: each registered 16-byte key with the set of app ids that asked for it. */
  type RequestTable = map<StreamId, set<nat>>

  /** One row of `lookup_mask`: which of the four fields are forced to their ANY value. */
  datatype LookupMask = LookupMask(fwd: bool, dev: bool, path: bool, name: bool)

  /** `lookup_mask`, in its order; the version field is never masked. */
  const LOOKUP_MASKS: seq<LookupMask> := [
    LookupMask(false, false, false, false),
    LookupMask(false, false, false, true),
    LookupMask(false, false, true, false),
    LookupMask(false, true, false, false),
    LookupMask(true, false, false, false),
    LookupMask(false, false, true, true),
    LookupMask(false, true, false, true),
    LookupMask(true, false, false, true),
    LookupMask(false, true, true, false),
    LookupMask(true, false, true, false),
    LookupMask(true, true, false, false),
    LookupMask(false, true, true, true),
    LookupMask(true, false, true, true),
    LookupMask(true, true, false, true),
    LookupMask(true, true, true, false),
    LookupMask(true, true, true, true)]

  const NUM_REQ_LOOKUPS: nat := 16

  /** The 16 rows are the 16 subsets of the four fields, each exactly once. */
  lemma LookupMasksAreAllSubsets()
    ensures |LOOKUP_MASKS| == NUM_REQ_LOOKUPS
    ensures forall m: LookupMask :: m in LOOKUP_MASKS
    ensures forall i, j :: 0 <= i < j < |LOOKUP_MASKS| ==> LOOKUP_MASKS[i] != LOOKUP_MASKS[j]
  {
    forall m: LookupMask
      ensures m in LOOKUP_MASKS
    {
      var k := (if m.fwd then 8 else 0) + (if m.dev then 4 else 0) + (if m.path then 2 else 0) + (if m.name then 1 else 0);
      assert k in {0, 1, 2, 3, 4, 5, 6, 7, 8, 9, 10, 11, 12, 13, 14, 15};
    }
  }

  // ---- the probe key for one row (src/router/jrtc_router.c:193-197) ----

  /** The value a row ORs into a field: the field's ANY value when the row masks it, else 0. */
  function Or(masked: bool, any: bv64): bv64
  {
    if masked then any else 0
  }

  /** The four apply-mask macros run on a copy of `sid` with the values of row `m`. */
  function LookupKey(sid: StreamId, m: LookupMask): StreamId
  {
    var a := ApplyFwdDst(sid, Or(m.fwd, DEST_ANY));
    var b := ApplyDeviceId(a, Or(m.dev, DEVICE_ID_ANY));
    var c := ApplyStreamPath(b, Or(m.path, STREAM_PATH_ANY));
    ApplyStreamName(c, Or(m.name, STREAM_NAME_ANY))
  }

  /** A field after its apply step: the ANY value when masked, else what it was. */
  function Masked(masked: bool, any: bv64, v: bv64): bv64
  {
    if masked then any else v
  }

  lemma FwdStep(id: StreamId, b: bool)
    ensures Decode(ApplyFwdDst(id, Or(b, DEST_ANY))) == Decode(id).(fwd := Masked(b, DEST_ANY, Decode(id).fwd))
  {
    ApplyZero(id);
    if b {
      ApplyAnyFwdDst(id);
      SetFwdDstFields(id, DEST_ANY);
    }
  }

  lemma DevStep(id: StreamId, b: bool)
    ensures Decode(ApplyDeviceId(id, Or(b, DEVICE_ID_ANY))) == Decode(id).(dev := Masked(b, DEVICE_ID_ANY, Decode(id).dev))
  {
    ApplyZero(id);
    if b {
      ApplyAnyDeviceId(id);
      SetDeviceIdFields(id, DEVICE_ID_ANY);
    }
  }

  lemma PathStep(id: StreamId, b: bool)
    ensures Decode(ApplyStreamPath(id, Or(b, STREAM_PATH_ANY))) == Decode(id).(path := Masked(b, STREAM_PATH_ANY, Decode(id).path))
  {
    ApplyZero(id);
    if b {
      ApplyAnyStreamPath(id);
      SetStreamPathFields(id, STREAM_PATH_ANY);
    }
  }

  lemma NameStep(id: StreamId, b: bool)
    ensures Decode(ApplyStreamName(id, Or(b, STREAM_NAME_ANY))) == Decode(id).(name := Masked(b, STREAM_NAME_ANY, Decode(id).name))
  {
    ApplyZero(id);
    if b {
      ApplyAnyStreamName(id);
      SetStreamNameFields(id, STREAM_NAME_ANY);
    }
  }

  /**
   * The probe key of row `m` is `sid` with exactly the masked fields replaced
   * by their ANY values: the version and every unmasked field are kept.
   */
  lemma LookupKeyFields(sid: StreamId, m: LookupMask)
    ensures Decode(LookupKey(sid, m)) == Decode(sid).(fwd := Masked(m.fwd, DEST_ANY, Decode(sid).fwd),
                                                      dev := Masked(m.dev, DEVICE_ID_ANY, Decode(sid).dev),
                                                      path := Masked(m.path, STREAM_PATH_ANY, Decode(sid).path),
                                                      name := Masked(m.name, STREAM_NAME_ANY, Decode(sid).name))
  {
    var a := ApplyFwdDst(sid, Or(m.fwd, DEST_ANY));
    var b := ApplyDeviceId(a, Or(m.dev, DEVICE_ID_ANY));
    var c := ApplyStreamPath(b, Or(m.path, STREAM_PATH_ANY));
    var d := ApplyStreamName(c, Or(m.name, STREAM_NAME_ANY));
    assert LookupKey(sid, m) == d;
    var fs := Decode(sid);
    FwdStep(sid, m.fwd);
    var fa := fs.(fwd := Masked(m.fwd, DEST_ANY, fs.fwd));
    assert Decode(a) == fa;
    DevStep(a, m.dev);
    var fb := fa.(dev := Masked(m.dev, DEVICE_ID_ANY, fs.dev));
    assert Decode(b) == fb;
    PathStep(b, m.path);
    var fc := fb.(path := Masked(m.path, STREAM_PATH_ANY, fs.path));
    assert Decode(c) == fc;
    NameStep(c, m.name);
  }

  /** Each apply step only adds bits: the id it starts from is a byte-wise subset of its result. */
  lemma ApplyFwdDstAddsBits(id: StreamId, v: bv64)
    ensures ByteSubset(id, ApplyFwdDst(id, v))
  {}

  lemma ApplyDeviceIdAddsBits(id: StreamId, v: bv64)
    ensures ByteSubset(id, ApplyDeviceId(id, v))
  {}

  lemma ApplyStreamPathAddsBits(id: StreamId, v: bv64)
    ensures ByteSubset(id, ApplyStreamPath(id, v))
  {}

  lemma ApplyStreamNameAddsBits(id: StreamId, v: bv64)
    ensures ByteSubset(id, ApplyStreamName(id, v))
  {}

  lemma ByteSubsetTransitive(a: StreamId, b: StreamId, c: StreamId)
    requires ByteSubset(a, b) && ByteSubset(b, c)
    ensures ByteSubset(a, c)
  {}

  /** The probe keys only add bits, so the incoming id matches every key probed for it. */
  lemma MatchesLookupKey(sid: StreamId, m: LookupMask)
    ensures MatchesReq(sid, LookupKey(sid, m))
  {
    var a := ApplyFwdDst(sid, Or(m.fwd, DEST_ANY));
    var b := ApplyDeviceId(a, Or(m.dev, DEVICE_ID_ANY));
    var c := ApplyStreamPath(b, Or(m.path, STREAM_PATH_ANY));
    var d := ApplyStreamName(c, Or(m.name, STREAM_NAME_ANY));
    ApplyFwdDstAddsBits(sid, Or(m.fwd, DEST_ANY));
    ApplyDeviceIdAddsBits(a, Or(m.dev, DEVICE_ID_ANY));
    ApplyStreamPathAddsBits(b, Or(m.path, STREAM_PATH_ANY));
    ApplyStreamNameAddsBits(c, Or(m.name, STREAM_NAME_ANY));
    ByteSubsetTransitive(sid, a, b);
    ByteSubsetTransitive(sid, b, c);
    ByteSubsetTransitive(sid, c, d);
    MatchesReqIsByteSubset(sid, d);
  }

  // ---- the recipients (src/router/jrtc_router.c:185-210) ----

  /** The app set stored under `key`, empty when the key is absent. */
  function AppsAt(reqs: RequestTable, key: StreamId): set<nat>
  {
    if key in reqs then reqs[key] else {}
  }

  /** `lookup_res` after probing the rows `masks` in order: the union of the sets found. */
  function Probe(reqs: RequestTable, sid: StreamId, masks: seq<LookupMask>): set<nat>
  {
    if masks == [] then {}
    else Probe(reqs, sid, masks[..|masks| - 1]) + AppsAt(reqs, LookupKey(sid, masks[|masks| - 1]))
  }

  /** The apps an incoming id is delivered to: the union over all 16 rows. */
  function Recipients(reqs: RequestTable, sid: StreamId): set<nat>
  {
    Probe(reqs, sid, LOOKUP_MASKS)
  }

  /** An app is found by probing some rows iff it registered the key of one of them. */
  lemma {:induction false} ProbeMeaning(reqs: RequestTable, sid: StreamId, masks: seq<LookupMask>, a: nat)
    ensures a in Probe(reqs, sid, masks) <==> exists m :: m in masks && a in AppsAt(reqs, LookupKey(sid, m))
  {
    if masks != [] {
      var init := masks[..|masks| - 1];
      ProbeMeaning(reqs, sid, init, a);
      assert forall m :: m in masks <==> m in init || m == masks[|masks| - 1];
    }
  }

  /**
   * An app receives an incoming id iff it registered that id with some of
   * its fwd_dst, device_id, path and name fields (possibly none, possibly
   * all) replaced by the ANY value.
   */
  lemma RecipientsMeaning(reqs: RequestTable, sid: StreamId, a: nat)
    ensures a in Recipients(reqs, sid) <==> exists m: LookupMask :: a in AppsAt(reqs, LookupKey(sid, m))
  {
    ProbeMeaning(reqs, sid, LOOKUP_MASKS, a);
    LookupMasksAreAllSubsets();
  }

  /** Every recipient registered a key the incoming id matches. */
  lemma RecipientsMatch(reqs: RequestTable, sid: StreamId, a: nat)
    requires a in Recipients(reqs, sid)
    ensures exists key :: key in reqs && a in reqs[key] && MatchesReq(sid, key)
  {
    RecipientsMeaning(reqs, sid, a);
    var m: LookupMask :| a in AppsAt(reqs, LookupKey(sid, m));
    MatchesLookupKey(sid, m);
  }

  /**
   * The converse fails: the lookup is narrower than matching. A request with
   * the version bits set matches every id of version 0 but is never probed,
   * since no row touches the version.
   */
  lemma RecipientsNarrowerThanMatching()
    ensures MatchesReq(ZERO, ALL_ONES)
    ensures 0 !in Recipients(map[ALL_ONES := {0}], ZERO)
  {
    MatchesAllOnes(ZERO);
    forall m: LookupMask
      ensures LookupKey(ZERO, m) != ALL_ONES
    {
      LookupKeyFields(ZERO, m);
    }
    RecipientsMeaning(map[ALL_ONES := {0}], ZERO, 0);
  }

  // ---- ring sizing (src/router/jrtc_router.c:38-48, 591) ----

  /**
   * `round_up_pow_of_two` on a `uint32_t`: smear the bits below the top one
   * of `x - 1`, then add one. The result is 0 or a power of two, and never
   * less than `x` unless it is 0.
   */
  function RoundUpPowOfTwo(x: bv32): (r: bv32)
    ensures r == 0 || (r & (r - 1) == 0 && x <= r)
  {
    var v := x - 1;
    var v1 := v | (v >> 1);
    var v2 := v1 | (v1 >> 2);
    var v3 := v2 | (v2 >> 4);
    var v4 := v3 | (v3 >> 8);
    var v5 := v4 | (v4 >> 16);
    v5 + 1
  }

  /** `r` is a power of two. */
  predicate PowerOfTwo(r: bv32)
  {
    r != 0 && r & (r - 1) == 0
  }

  /** For 1 <= x <= 2^31 the result is the least power of two that is at least `x`. */
  lemma RoundUpIsLeastPowerOfTwo(x: bv32)
    requires 1 <= x <= 0x8000_0000
    ensures PowerOfTwo(RoundUpPowOfTwo(x))
    ensures x <= RoundUpPowOfTwo(x)
    ensures RoundUpPowOfTwo(x) >> 1 < x
  {}

  /** Above 2^31 (and at 0) the `uint32_t` arithmetic wraps to 0. */
  lemma RoundUpWraps(x: bv32)
    requires x == 0 || x > 0x8000_0000
    ensures RoundUpPowOfTwo(x) == 0
  {}

  /** A ring of `round_up_pow_of_two(q + 1)` slots keeps one slot free and still holds `q` entries. */
  lemma RingHoldsQueue(q: bv32)
    requires q <= 10000
    ensures q < RoundUpPowOfTwo(q + 1)
  {
    RoundUpIsLeastPowerOfTwo(q + 1);
  }
}
