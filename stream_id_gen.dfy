/**
 * Stream-id generation and the NULL-safe accessors
 * (src/stream_id/jrtc_router_stream_id.c).
 *
 * The stream path and the stream name are each reduced to a 54-bit
 * fingerprint: a Bloom filter of 54 bits filled by 38 seeded hashes of the
 * string, read back as an integer whose bit `i` is bit `i` of the filter.
 * MurmurHash64A is not part of this model: it is the parameter `hash`, where
 * `hash(s, j)` is the 64-bit hash of `s` with seed `j`.
 */
module StreamIdGen {
  import opened Wrappers
  import opened StreamIdCodec
  import opened RouterBitmap

  /**
   * The word `1 << k`, built as `k` doublings of 1. Reasoning about a shift
   * by a symbolic integer amount is costly for the solver; this form keeps
   * the amount out of the bit-vector terms, and `BitIsShift` ties it back.
   */
  function Bit(k: nat): bv64
    requires k < 64
  {
    if k == 0 then 1 else Bit(k - 1) << 1
  }

  /** `Bit(k)` is `1 << k`, by cases on `k` (with the induction hypothesis for `k - 1`), eight values per lemma. */
  lemma BitIsShift(k: nat)
    requires k < 64
    ensures Bit(k) == 1 << k
  {
    if k < 56 {
      BitIsShiftBelow56(k);
    } else {
      if k == 56 {
      } else if k == 57 {
      } else if k == 58 {
      } else if k == 59 {
      } else if k == 60 {
      } else if k == 61 {
      } else if k == 62 {
      } else if k == 63 {
      }
    }
  }

  /** `BitIsShift` for `k < 56`. */
  lemma BitIsShiftBelow56(k: nat)
    requires k < 56
    ensures Bit(k) == 1 << k
  {
    if k < 48 {
      BitIsShiftBelow48(k);
    } else {
      if k == 48 {
      } else if k == 49 {
      } else if k == 50 {
      } else if k == 51 {
      } else if k == 52 {
      } else if k == 53 {
      } else if k == 54 {
      } else if k == 55 {
      }
    }
  }

  /** `BitIsShift` for `k < 48`. */
  lemma BitIsShiftBelow48(k: nat)
    requires k < 48
    ensures Bit(k) == 1 << k
  {
    if k < 40 {
      BitIsShiftBelow40(k);
    } else {
      if k == 40 {
      } else if k == 41 {
      } else if k == 42 {
      } else if k == 43 {
      } else if k == 44 {
      } else if k == 45 {
      } else if k == 46 {
      } else if k == 47 {
      }
    }
  }

  /** `BitIsShift` for `k < 40`. */
  lemma BitIsShiftBelow40(k: nat)
    requires k < 40
    ensures Bit(k) == 1 << k
  {
    if k < 32 {
      BitIsShiftBelow32(k);
    } else {
      if k == 32 {
      } else if k == 33 {
      } else if k == 34 {
      } else if k == 35 {
      } else if k == 36 {
      } else if k == 37 {
      } else if k == 38 {
      } else if k == 39 {
      }
    }
  }

  /** `BitIsShift` for `k < 32`. */
  lemma BitIsShiftBelow32(k: nat)
    requires k < 32
    ensures Bit(k) == 1 << k
  {
    if k < 24 {
      BitIsShiftBelow24(k);
    } else {
      if k == 24 {
      } else if k == 25 {
      } else if k == 26 {
      } else if k == 27 {
      } else if k == 28 {
      } else if k == 29 {
      } else if k == 30 {
      } else if k == 31 {
      }
    }
  }

  /** `BitIsShift` for `k < 24`. */
  lemma BitIsShiftBelow24(k: nat)
    requires k < 24
    ensures Bit(k) == 1 << k
  {
    if k < 16 {
      BitIsShiftBelow16(k);
    } else {
      if k == 16 {
      } else if k == 17 {
      } else if k == 18 {
      } else if k == 19 {
      } else if k == 20 {
      } else if k == 21 {
      } else if k == 22 {
      } else if k == 23 {
      }
    }
  }

  /** `BitIsShift` for `k < 16`. */
  lemma BitIsShiftBelow16(k: nat)
    requires k < 16
    ensures Bit(k) == 1 << k
  {
    if k < 8 {
      BitIsShiftBelow8(k);
    } else {
      if k == 8 {
      } else if k == 9 {
      } else if k == 10 {
      } else if k == 11 {
      } else if k == 12 {
      } else if k == 13 {
      } else if k == 14 {
      } else if k == 15 {
      }
    }
  }

  /** `BitIsShift` for `k < 8`. */
  lemma BitIsShiftBelow8(k: nat)
    requires k < 8
    ensures Bit(k) == 1 << k
  {
    if k == 0 {
    } else if k == 1 {
    } else if k == 2 {
    } else if k == 3 {
    } else if k == 4 {
    } else if k == 5 {
    } else if k == 6 {
    } else if k == 7 {
    }
  }

  /** Distinct bits share nothing. */
  lemma {:induction false} BitDisjoint(j: nat, k: nat)
    requires j < k < 64
    ensures Bit(j) & Bit(k) == 0
    decreases j
  {
    if j == 0 {
      ShiftOutLow(Bit(k - 1));
    } else {
      BitDisjoint(j - 1, k - 1);
      ShiftPair(Bit(j - 1), Bit(k - 1));
    }
  }

  lemma ShiftOutLow(x: bv64)
    ensures (x << 1) & 1 == 0
  {}

  lemma ShiftPair(x: bv64, y: bv64)
    requires x & y == 0
    ensures (x << 1) & (y << 1) == 0
  {}

  lemma BitNonZero(k: nat)
    requires k < 64
    ensures Bit(k) != 0
  {
    BitIsShift(k);
  }

  /** The word `w` shares a set bit with the mask `m`. */
  predicate Meets(w: bv64, m: bv64)
  {
    w & m != 0
  }

  lemma OrKeepsSet(w: bv64, x: bv64)
    requires x != 0
    ensures Meets(w | x, x)
  {}

  lemma OrDisjoint(w: bv64, x: bv64, y: bv64)
    requires x & y == 0
    ensures Meets(w | x, y) <==> Meets(w, y)
  {}

  lemma OrDisjointSwapped(w: bv64, x: bv64, y: bv64)
    requires y & x == 0
    ensures Meets(w | x, y) <==> Meets(w, y)
  {}

  lemma OrBitSame(w: bv64, a: nat, x: bv64)
    requires a < 64 && x == Bit(a)
    ensures Meets(w | x, x)
  {
    BitNonZero(a);
    OrKeepsSet(w, x);
  }

  lemma OrBitBelow(w: bv64, a: nat, b: nat, x: bv64, y: bv64)
    requires a < b < 64 && x == Bit(a) && y == Bit(b)
    ensures Meets(w | x, y) <==> Meets(w, y)
  {
    BitDisjoint(a, b);
    OrDisjoint(w, x, y);
  }

  lemma OrBitAbove(w: bv64, a: nat, b: nat, x: bv64, y: bv64)
    requires b < a < 64 && x == Bit(a) && y == Bit(b)
    ensures Meets(w | x, y) <==> Meets(w, y)
  {
    BitDisjoint(b, a);
    OrDisjointSwapped(w, x, y);
  }

  /** ORing in bit `a` (the word `x`) sets bit `a` and no other. */
  lemma OrBit64(w: bv64, a: nat, b: nat, x: bv64, y: bv64)
    requires a < 64 && b < 64 && x == Bit(a) && y == Bit(b)
    ensures Meets(w | x, y) <==> Meets(w, y) || a == b
  {
    if a == b {
      OrBitSame(w, a, x);
    } else if a < b {
      OrBitBelow(w, a, b, x, y);
    } else {
      OrBitAbove(w, a, b, x, y);
    }
  }

  /** Bits below 54 fit the 54-bit path and name fields. */
  lemma OrBitFits(w: bv64, a: nat)
    requires a < 54 && w & 0x3F_FFFF_FFFF_FFFF == w
    ensures (w | Bit(a)) & 0x3F_FFFF_FFFF_FFFF == w | Bit(a)
  {
    BitIsShift(a);
  }

  /** A 64-bit word with bit `x` set for every `x` in `xs`, ORed in from left to right. */
  ghost function MaskOf(xs: seq<nat>): bv64
    requires forall k :: 0 <= k < |xs| ==> xs[k] < 64
  {
    if xs == [] then 0 else MaskOf(xs[..|xs| - 1]) | Bit(xs[|xs| - 1])
  }

  /** Bit `b` (the word `y`) of `MaskOf(xs)` is set iff `b` occurs in `xs`. */
  lemma {:induction false} MaskOfBit(xs: seq<nat>, b: nat, y: bv64)
    requires forall k :: 0 <= k < |xs| ==> xs[k] < 64
    requires b < 64 && y == Bit(b)
    ensures Meets(MaskOf(xs), y) <==> b in xs
  {
    if xs != [] {
      var init, last := xs[..|xs| - 1], xs[|xs| - 1];
      InLast(xs, b);
      MaskOfBit(init, b, y);
      OrBit64(MaskOf(init), last, b, Bit(last), y);
    }
  }

  /** Membership in a non-empty sequence, split at its last element. */
  lemma InLast(xs: seq<nat>, b: nat)
    requires xs != []
    ensures b in xs <==> b in xs[..|xs| - 1] || b == xs[|xs| - 1]
  {
    assert xs == xs[..|xs| - 1] + [xs[|xs| - 1]];
  }

  /** Extending the prefix by one index ORs in that index's bit. */
  lemma MaskOfPrefix(xs: seq<nat>, n: nat, w: bv64, i: nat, x: bv64)
    requires forall k :: 0 <= k < |xs| ==> xs[k] < 64
    requires n < |xs| && w == MaskOf(xs[..n]) && i == xs[n] && x == Bit(i)
    ensures w | x == MaskOf(xs[..n + 1])
  {
    assert xs[..n + 1][..n] == xs[..n];
  }

  /** Indices below 54 give a mask below 2^54. */
  lemma {:induction false} MaskOfFits(xs: seq<nat>)
    requires forall k :: 0 <= k < |xs| ==> xs[k] < 54
    ensures MaskOf(xs) & 0x3F_FFFF_FFFF_FFFF == MaskOf(xs)
  {
    if xs != [] {
      MaskOfFits(xs[..|xs| - 1]);
      OrBitFits(MaskOf(xs[..|xs| - 1]), xs[|xs| - 1]);
    }
  }

  // ---- the Bloom filter (`jrtc_router_bf_t`) ----

  /** Hash number `j` of `elem` lands on bit `k` for some seed `j < n`. */
  ghost predicate Hit(hash: (string, nat) -> nat, elem: string, n: nat, size: nat, k: nat)
    requires size > 0
  {
    exists j :: 0 <= j < n && hash(elem, j) % size == k
  }

  /** The bits of an empty filter of `size` bits after adding `elem` with `n` hashes. */
  ghost function FilterBits(hash: (string, nat) -> nat, elem: string, n: nat, size: nat): (s: seq<bool>)
    requires size > 0
    ensures |s| == size
    ensures forall k :: 0 <= k < size ==> s[k] == Hit(hash, elem, n, size, k)
  {
    seq(size, k requires 0 <= k < size => Hit(hash, elem, n, size, k))
  }

  class BloomFilter {
    const bitmap: Bitmap
    const bitSize: nat
    const nHash: nat

    ghost predicate Valid()
      reads this, bitmap
    {
      bitmap.Valid() && bitmap.size == bitSize && bitSize > 0
    }

    constructor (bm: Bitmap, n: nat)
      requires bm.Valid() && bm.size > 0
      ensures Valid() && bitmap == bm && bitSize == bm.size && nHash == n
    {
      bitmap := bm;
      bitSize := bm.size;
      nHash := n;
    }
  }

  /**
   * `jrtc_router_bf_init`: a filter over a fresh, clear bitmap, or None when
   * the bitmap cannot be allocated.
   */
  method BloomInit(bitSize: nat, nHash: nat, allocOk: bool) returns (r: Option<BloomFilter>)
    requires 0 < bitSize <= MAX_SIZE
    ensures !allocOk <==> r.None?
    ensures r.Some? ==> fresh(r.value) && fresh(r.value.bitmap) && fresh(r.value.bitmap.data)
    ensures r.Some? ==> r.value.Valid() && r.value.bitSize == bitSize && r.value.nHash == nHash
    ensures r.Some? ==> r.value.bitmap.Bits() == seq(bitSize, _ => false)
  {
    var bm := Create(bitSize, allocOk);
    if bm == null {
      return None;
    }
    var bf := new BloomFilter(bm, nHash);
    return Some(bf);
  }

  /**
   * `jrtc_router_bf_add`: for each seed `i < nHash`, sets bit
   * `hash(elem, i) % bitSize`; a bit ends up set iff it was set before or
   * some seed hits it.
   */
  method BloomAdd(bf: BloomFilter, elem: string, hash: (string, nat) -> nat)
    requires bf.Valid()
    modifies bf.bitmap.data
    ensures bf.Valid()
    ensures forall k :: 0 <= k < bf.bitSize ==>
              bf.bitmap.Bits()[k] == (old(bf.bitmap.Bits())[k] || Hit(hash, elem, bf.nHash, bf.bitSize, k))
  {
    var i := 0;
    while i < bf.nHash
      invariant 0 <= i <= bf.nHash
      invariant bf.Valid()
      invariant forall k :: 0 <= k < bf.bitSize ==>
                  bf.bitmap.Bits()[k] == (old(bf.bitmap.Bits())[k] || Hit(hash, elem, i, bf.bitSize, k))
    {
      var h := hash(elem, i) % bf.bitSize;
      ghost var before := bf.bitmap.Bits();
      Set(bf.bitmap, h);
      forall k | 0 <= k < bf.bitSize
        ensures bf.bitmap.Bits()[k] == (old(bf.bitmap.Bits())[k] || Hit(hash, elem, i + 1, bf.bitSize, k))
      {
        if k == h {
          assert Hit(hash, elem, i + 1, bf.bitSize, k) by {
            assert hash(elem, i) % bf.bitSize == k;
          }
        } else if Hit(hash, elem, i + 1, bf.bitSize, k) {
          var j :| 0 <= j < i + 1 && hash(elem, j) % bf.bitSize == k;
          assert j < i;
        }
      }
      i := i + 1;
    }
  }

  /**
   * `jrtc_router_bf_contains`: true iff every seed's bit is set; the scan
   * stops at the first clear one.
   */
  method BloomContains(bf: BloomFilter, elem: string, hash: (string, nat) -> nat) returns (r: bool)
    requires bf.Valid()
    ensures r <==> forall j :: 0 <= j < bf.nHash ==> bf.bitmap.Bits()[hash(elem, j) % bf.bitSize]
  {
    var i := 0;
    while i < bf.nHash
      invariant 0 <= i <= bf.nHash
      invariant forall j :: 0 <= j < i ==> bf.bitmap.Bits()[hash(elem, j) % bf.bitSize]
    {
      if Get(bf.bitmap, hash(elem, i) % bf.bitSize) != 1 {
        return false;
      }
      i := i + 1;
    }
    return true;
  }

  /** Adding an element makes the filter report it: a Bloom filter has no false negatives. */
  lemma NoFalseNegative(hash: (string, nat) -> nat, elem: string, n: nat, size: nat, bits: seq<bool>)
    requires size > 0 && |bits| == size
    requires forall k :: 0 <= k < size ==> (bits[k] <== Hit(hash, elem, n, size, k))
    ensures forall j :: 0 <= j < n ==> bits[hash(elem, j) % size]
  {
    forall j | 0 <= j < n
      ensures bits[hash(elem, j) % size]
    {
      assert Hit(hash, elem, n, size, hash(elem, j) % size);
    }
  }

  /** The word with a bit for each of the first `n` set bits of `bits`. */
  ghost function FirstBits(bits: seq<bool>, n: nat): bv64
    requires |bits| <= 64
  {
    var all := SetFrom(bits, 0);
    SetFromBelow(bits, 0);
    MaskOf(all[..if |all| < n then |all| else n])
  }

  /**
   * `jrtc_router_bf_extract_bits`: 0 when `nBits > 64` or the filter is
   * smaller than `nBits`; otherwise the word with a bit for each of the
   * first `nBits` set bits of the filter, in ascending order.
   */
  method ExtractBits(bf: BloomFilter, nBits: nat) returns (result: bv64)
    requires bf.Valid() && bf.bitSize <= 64
    ensures nBits > 64 || bf.bitSize < nBits ==> result == 0
    ensures nBits <= 64 && nBits <= bf.bitSize ==> result == FirstBits(bf.bitmap.Bits(), nBits)
  {
    result := 0;
    if nBits > 64 || bf.bitSize < nBits {
      return;
    }
    var it := new Iterator(bf.bitmap);
    ghost var bits := bf.bitmap.Bits();
    ghost var all := SetFrom(bits, 0);
    SetFromBelow(bits, 0);
    var count: nat := 0;
    ghost var taken := 0;
    var more := it.HasNext();
    while more
      invariant it.Valid() && it.bitmap == bf.bitmap && bf.Valid()
      invariant taken == count <= |all| && count <= nBits
      invariant it.Remaining() == all[count..]
      invariant more <==> it.Remaining() != []
      invariant result == MaskOf(all[..taken])
      decreases |all| - count
    {
      count := count + 1;
      if count > nBits {
        break;
      }
      var i := it.Next();
      assert all[count..] == all[count - 1..][1..];
      var bit := Bit(i);
      MaskOfPrefix(all, taken, result, i, bit);
      result := result | bit;
      taken := taken + 1;
      more := it.HasNext();
    }
    assert taken == if |all| < nBits then |all| else nBits;
    assert result == FirstBits(bits, nBits);
  }

  // ---- the fingerprint of a string ----

  /** The filter bits of the fingerprint: bit `k` set iff some of the 38 seeds hashes there mod 54. */
  ghost function FingerprintBits(hash: (string, nat) -> nat, name: string): seq<bool>
  {
    FilterBits(hash, name, NUM_HASH_FUNCTIONS, HASH_NUMBER_BITS)
  }

  /** The 54-bit fingerprint of `name`. */
  ghost function Fingerprint(hash: (string, nat) -> nat, name: string): bv64
  {
    var all := SetFrom(FingerprintBits(hash, name), 0);
    SetFromBelow(FingerprintBits(hash, name), 0);
    MaskOf(all)
  }

  /** Bit `i` of the fingerprint is set iff some seed `j < 38` has `hash(name, j) % 54 == i`. */
  lemma FingerprintBit(hash: (string, nat) -> nat, name: string, i: nat)
    requires i < 64
    ensures Meets(Fingerprint(hash, name), Bit(i))
        <==> i < HASH_NUMBER_BITS && exists j :: 0 <= j < NUM_HASH_FUNCTIONS && hash(name, j) % HASH_NUMBER_BITS == i
  {
    var bits := FingerprintBits(hash, name);
    SetFromSpec(bits, 0);
    SetFromBelow(bits, 0);
    MaskOfBit(SetFrom(bits, 0), i, Bit(i));
  }

  /** The fingerprint fits the 54-bit path and name fields. */
  lemma FingerprintFits(hash: (string, nat) -> nat, name: string)
    ensures Fingerprint(hash, name) & 0x3F_FFFF_FFFF_FFFF == Fingerprint(hash, name)
  {
    var bits := FingerprintBits(hash, name);
    SetFromBelow(bits, 0);
    MaskOfFits(SetFrom(bits, 0));
  }

  /** The fingerprint is never 0: seed 0 always sets a bit. */
  lemma FingerprintNonZero(hash: (string, nat) -> nat, name: string)
    ensures Fingerprint(hash, name) != 0
  {
    var i := hash(name, 0) % HASH_NUMBER_BITS;
    FingerprintBit(hash, name, i);
  }

  /**
   * `jrtc_router_get_hash`: the fingerprint of `name`, or 0 when the
   * filter's bitmap cannot be allocated.
   */
  method GetHash(name: string, hash: (string, nat) -> nat, allocOk: bool) returns (value: bv64)
    ensures allocOk ==> value == Fingerprint(hash, name)
    ensures !allocOk ==> value == 0
  {
    var bf := BloomInit(HASH_NUMBER_BITS, NUM_HASH_FUNCTIONS, allocOk);
    if bf.None? {
      return 0;
    }
    var filter := bf.value;
    BloomAdd(filter, name, hash);
    assert filter.bitmap.Bits() == FingerprintBits(hash, name);
    ghost var all := SetFrom(filter.bitmap.Bits(), 0);
    SetFromLength(filter.bitmap.Bits(), 0);
    value := ExtractBits(filter, HASH_NUMBER_BITS);
    assert all[..|all|] == all;
  }

  // ---- the caller's id buffer and its NULL-safe accessors ----
  // (src/stream_id/jrtc_router_stream_id.c:135-279)

  /** The 16 bytes behind a `jrtc_router_stream_id_t` pointer, updated in place. */
  class StreamIdBuf {
    var id: StreamId

    constructor (id0: StreamId)
      ensures id == id0
    {
      id := id0;
    }
  }

  /** `jrtc_router_stream_id_set_ver`: writes the version's low 6 bits; NULL is ignored. */
  method SetVerOf(p: StreamIdBuf?, ver: bv16)
    modifies p
    ensures p != null ==> p.id == SetVer(old(p.id), ver as bv64)
    ensures p != null ==> Decode(p.id) == old(Decode(p.id)).(ver := ver as bv64 & 0x3F)
  {
    if p == null {
      return;
    }
    SetVerFields(p.id, ver as bv64);
    p.id := SetVer(p.id, ver as bv64);
  }

  /** `jrtc_router_stream_id_set_fwd_dst`: writes the destination's low 7 bits; NULL is ignored. */
  method SetFwdDstOf(p: StreamIdBuf?, fwd: bv16)
    modifies p
    ensures p != null ==> p.id == SetFwdDst(old(p.id), fwd as bv64)
    ensures p != null ==> Decode(p.id) == old(Decode(p.id)).(fwd := fwd as bv64 & 0x7F)
  {
    if p == null {
      return;
    }
    SetFwdDstFields(p.id, fwd as bv64);
    p.id := SetFwdDst(p.id, fwd as bv64);
  }

  /** `jrtc_router_stream_id_set_device_id`: writes the device's low 7 bits; NULL is ignored. */
  method SetDeviceIdOf(p: StreamIdBuf?, dev: bv16)
    modifies p
    ensures p != null ==> p.id == SetDeviceId(old(p.id), dev as bv64)
    ensures p != null ==> Decode(p.id) == old(Decode(p.id)).(dev := dev as bv64 & 0x7F)
  {
    if p == null {
      return;
    }
    SetDeviceIdFields(p.id, dev as bv64);
    p.id := SetDeviceId(p.id, dev as bv64);
  }

  /** `jrtc_router_stream_id_set_stream_path`: writes the path's low 54 bits; NULL is ignored. */
  method SetStreamPathOf(p: StreamIdBuf?, path: bv64)
    modifies p
    ensures p != null ==> p.id == SetStreamPath(old(p.id), path)
    ensures p != null ==> Decode(p.id) == old(Decode(p.id)).(path := path & 0x3F_FFFF_FFFF_FFFF)
  {
    if p == null {
      return;
    }
    SetStreamPathFields(p.id, path);
    p.id := SetStreamPath(p.id, path);
  }

  /** `jrtc_router_stream_id_set_stream_name`: writes the name's low 54 bits; NULL is ignored. */
  method SetStreamNameOf(p: StreamIdBuf?, name: bv64)
    modifies p
    ensures p != null ==> p.id == SetStreamName(old(p.id), name)
    ensures p != null ==> Decode(p.id) == old(Decode(p.id)).(name := name & 0x3F_FFFF_FFFF_FFFF)
  {
    if p == null {
      return;
    }
    SetStreamNameFields(p.id, name);
    p.id := SetStreamName(p.id, name);
  }

  /** `jrtc_router_stream_id_get_ver`: the 6-bit version, or 0 for NULL. */
  function VerOf(p: StreamIdBuf?): (v: bv64)
    reads p
    ensures p == null ==> v == 0
    ensures p != null ==> v == Decode(p.id).ver
    ensures v <= 0x3F
  {
    if p == null then 0 else GetVer(p.id)
  }

  /** `jrtc_router_stream_id_get_fwd_dst`: the 7-bit destination, or 0 for NULL. */
  function FwdDstOf(p: StreamIdBuf?): (v: bv64)
    reads p
    ensures p == null ==> v == 0
    ensures p != null ==> v == Decode(p.id).fwd
    ensures v <= 0x7F
  {
    if p == null then 0 else GetFwdDst(p.id)
  }

  /** `jrtc_router_stream_id_get_device_id`: the 7-bit device id, or 0 for NULL. */
  function DeviceIdOf(p: StreamIdBuf?): (v: bv64)
    reads p
    ensures p == null ==> v == 0
    ensures p != null ==> v == Decode(p.id).dev
    ensures v <= 0x7F
  {
    if p == null then 0 else GetDeviceId(p.id)
  }

  /** `jrtc_router_stream_id_get_stream_path`: the 54-bit path hash, or 0 for NULL. */
  function StreamPathOf(p: StreamIdBuf?): (v: bv64)
    reads p
    ensures p == null ==> v == 0
    ensures p != null ==> v == Decode(p.id).path
    ensures v <= 0x3F_FFFF_FFFF_FFFF
  {
    if p == null then 0 else GetStreamPath(p.id)
  }

  /** `jrtc_router_stream_id_get_stream_name`: the 54-bit name hash, or 0 for NULL. */
  function StreamNameOf(p: StreamIdBuf?): (v: bv64)
    reads p
    ensures p == null ==> v == 0
    ensures p != null ==> v == Decode(p.id).name
    ensures v <= 0x3F_FFFF_FFFF_FFFF
  {
    if p == null then 0 else GetStreamName(p.id)
  }

  /** The hash that stands for an optional path or name: the wildcard when it is absent. */
  ghost function HashOrAny(hash: (string, nat) -> nat, s: Option<string>, any: bv64): bv64
  {
    if s.None? then any else Fingerprint(hash, s.value)
  }

  /**
   * `jrtc_router_generate_stream_id`: fills the buffer with version 0, the
   * low 7 bits of the destination and the device, and the fingerprints of
   * path and name (the wildcard for an absent one). It fails with -1 on a
   * NULL buffer or when a fingerprint cannot be computed, leaving the
   * buffer zeroed; `pathAllocOk` and `nameAllocOk` say whether the two
   * Bloom filters could be allocated.
   */
  method GenerateStreamId(p: StreamIdBuf?, fwd: bv32, dev: bv32, path: Option<string>, name: Option<string>,
                          hash: (string, nat) -> nat, pathAllocOk: bool, nameAllocOk: bool)
    returns (rc: int)
    modifies p
    ensures rc == 1 || rc == -1
    ensures rc == -1 <==> p == null || (path.Some? && !pathAllocOk) || (name.Some? && !nameAllocOk)
    ensures p != null && rc == -1 ==> p.id == ZERO
    ensures rc == 1 ==> p.id == Encode(Fields(STREAM_ID_VERSION, (fwd & 0x7F) as bv64, (dev & 0x7F) as bv64,
                                              HashOrAny(hash, path, STREAM_PATH_ANY),
                                              HashOrAny(hash, name, STREAM_NAME_ANY)))
  {
    if p == null {
      return -1;
    }
    p.id := ZERO;
    var pathHash: bv64 := STREAM_PATH_ANY;
    if path.Some? {
      pathHash := GetHash(path.value, hash, pathAllocOk);
      if pathAllocOk {
        FingerprintNonZero(hash, path.value);
        FingerprintFits(hash, path.value);
      }
    }
    var nameHash: bv64 := STREAM_NAME_ANY;
    if name.Some? {
      nameHash := GetHash(name.value, hash, nameAllocOk);
      if nameAllocOk {
        FingerprintNonZero(hash, name.value);
        FingerprintFits(hash, name.value);
      }
    }
    if pathHash == 0 || nameHash == 0 {
      return -1;
    }
    // The struct's bit-fields keep the low 7 bits of the two ints.
    var fs := Fields(STREAM_ID_VERSION, (fwd & 0x7F) as bv64, (dev & 0x7F) as bv64, pathHash, nameHash);
    SetAllEncodes(p.id, fs);
    p.id := SetVer(p.id, fs.ver);
    p.id := SetFwdDst(p.id, fs.fwd);
    p.id := SetDeviceId(p.id, fs.dev);
    p.id := SetStreamPath(p.id, fs.path);
    p.id := SetStreamName(p.id, fs.name);
    return 1;
  }
}
