/**
 * The fixed-size bit array of the router (src/stream_id/jrtc_router_bitmap.h):
 * a word array of `(size + 31) / 32` 32-bit words, bit `i` stored at bit
 * `i % 32` of word `i / 32`, and an iterator that walks the set bits upwards.
 */
module RouterBitmap {
  /** The largest size whose word count `(size + 31) / 32` does not wrap in 32 bits. */
  const MAX_SIZE: nat := 0x1_0000_0000 - 32
  /** `(uint32_t)-1`, what `next` returns once the set bits are exhausted. */
  const NO_MORE: nat := 0xFFFF_FFFF

  class Bitmap {
    var size: nat
    var data: array<bv32>

    ghost predicate Valid()
      reads this
    {
      size <= MAX_SIZE && data.Length == (size + 31) / 32
    }

    /** Whether bit `i` is set in the word array. */
    predicate Bit(i: nat)
      reads this, data
      requires Valid() && i < size
    {
      data[i / 32] & (1 << (i % 32)) != 0
    }

    /** The abstract value: one boolean per bit. */
    ghost function Bits(): (s: seq<bool>)
      reads this, data
      requires Valid()
      ensures |s| == size
    {
      seq(size, i reads this, data requires 0 <= i < size && Valid() => Bit(i))
    }

    /** `jrtc_router_bitmap_create` when both allocations succeed: all bits clear. */
    constructor (n: nat)
      requires n <= MAX_SIZE
      ensures Valid() && fresh(data) && size == n
      ensures Bits() == seq(n, _ => false)
    {
      size := n;
      var words := new bv32[(n + 31) / 32];
      var i := 0;
      while i < words.Length
        invariant 0 <= i <= words.Length
        invariant forall j :: 0 <= j < i ==> words[j] == 0
      {
        words[i] := 0;
        i := i + 1;
      }
      data := words;
    }
  }

  /**
   * `jrtc_router_bitmap_create`: NULL when either allocation fails
   * (`allocOk` false), otherwise a bitmap of `n` clear bits.
   */
  method Create(n: nat, allocOk: bool) returns (bm: Bitmap?)
    requires n <= MAX_SIZE
    ensures !allocOk ==> bm == null
    ensures allocOk ==> bm != null && fresh(bm) && fresh(bm.data) && bm.Valid() && bm.size == n
    ensures allocOk ==> bm.Bits() == seq(n, _ => false)
  {
    if !allocOk {
      return null;
    }
    bm := new Bitmap(n);
  }

  /** ORing bit `a` into a word sets bit `a` and keeps the others. */
  lemma OrBit(w: bv32, a: nat, b: nat)
    requires a < 32 && b < 32
    ensures (w | (1 << a)) & (1 << b) != 0 <==> (w & (1 << b) != 0 || a == b)
  {}

  /** Bits that changed only at `index`, to true, are the old bits updated there. */
  lemma BitsSetAt(bm: Bitmap, before: seq<bool>, index: nat)
    requires bm.Valid() && |before| == bm.size && index < bm.size
    requires forall i :: 0 <= i < bm.size ==> bm.Bit(i) == (before[i] || i == index)
    ensures bm.Bits() == before[index := true]
  {}

  /**
   * `jrtc_router_bitmap_set`: sets bit `index` when it is in range; a NULL
   * bitmap or an out-of-range index leaves everything as it was.
   */
  method Set(bm: Bitmap?, index: nat)
    requires bm != null ==> bm.Valid()
    modifies if bm != null then {bm.data} else {}
    ensures bm != null ==> bm.Valid()
    ensures bm != null ==> bm.Bits() == if index < bm.size then old(bm.Bits())[index := true] else old(bm.Bits())
  {
    if bm == null {
      return;
    }
    if index < bm.size {
      bm.data[index / 32] := bm.data[index / 32] | (1 << (index % 32));
      forall i | 0 <= i < bm.size
        ensures bm.Bit(i) == (old(bm.Bit(i)) || i == index)
      {
        if i / 32 == index / 32 {
          OrBit(old(bm.data[index / 32]), index % 32, i % 32);
        }
      }
      BitsSetAt(bm, old(bm.Bits()), index);
    }
  }

  /**
   * `jrtc_router_bitmap_get`: 1 or 0 for an index in range, -1 for a NULL
   * bitmap or an index at or beyond the size.
   */
  function Get(bm: Bitmap?, index: nat): (r: int)
    reads bm, if bm != null then {bm.data} else {}
    requires bm != null ==> bm.Valid()
    ensures bm == null || index >= bm.size ==> r == -1
    ensures bm != null && index < bm.size ==> r == if bm.Bits()[index] then 1 else 0
  {
    if bm == null then -1
    else if index < bm.size then (if bm.Bit(index) then 1 else 0)
    else -1
  }

  /** The set indices of `bits` at or after `from`, in ascending order. */
  ghost function SetFrom(bits: seq<bool>, from: nat): seq<nat>
    decreases |bits| - from
  {
    if from >= |bits| then []
    else if bits[from] then [from] + SetFrom(bits, from + 1)
    else SetFrom(bits, from + 1)
  }

  /** `SetFrom` lists exactly the set bits at or after `from`, strictly ascending. */
  lemma {:induction false} SetFromSpec(bits: seq<bool>, from: nat)
    ensures forall x :: x in SetFrom(bits, from) <==> from <= x < |bits| && bits[x]
    ensures forall i, j :: 0 <= i < j < |SetFrom(bits, from)| ==> SetFrom(bits, from)[i] < SetFrom(bits, from)[j]
    decreases |bits| - from
  {
    if from < |bits| {
      SetFromSpec(bits, from + 1);
      var rest := SetFrom(bits, from + 1);
      if bits[from] {
        forall i, j | 0 <= i < j < |[from] + rest|
          ensures ([from] + rest)[i] < ([from] + rest)[j]
        {
          if i == 0 {
            assert rest[j - 1] in rest;
          }
        }
      }
    }
  }

  /** Skipping a clear bit does not change what remains to be enumerated. */
  lemma SetFromSkip(bits: seq<bool>, from: nat)
    requires from < |bits| && !bits[from]
    ensures SetFrom(bits, from) == SetFrom(bits, from + 1)
  {}

  /** Every listed index is a valid bit index. */
  lemma SetFromBelow(bits: seq<bool>, from: nat)
    ensures forall k :: 0 <= k < |SetFrom(bits, from)| ==> from <= SetFrom(bits, from)[k] < |bits|
  {
    SetFromSpec(bits, from);
    forall k | 0 <= k < |SetFrom(bits, from)|
      ensures from <= SetFrom(bits, from)[k] < |bits|
    {
      assert SetFrom(bits, from)[k] in SetFrom(bits, from);
    }
  }

  /** `SetFrom` lists at most one index per remaining bit. */
  lemma {:induction false} SetFromLength(bits: seq<bool>, from: nat)
    requires from <= |bits|
    ensures |SetFrom(bits, from)| <= |bits| - from
    decreases |bits| - from
  {
    if from < |bits| {
      SetFromLength(bits, from + 1);
    }
  }

  /** An ascending iterator over a bitmap (`jrtc_router_bitmap_iterator_t`). */
  class Iterator {
    const bitmap: Bitmap
    var index: nat

    ghost predicate Valid()
      reads this, bitmap
    {
      bitmap.Valid() && index <= bitmap.size
    }

    /** The set indices the iterator has yet to return. */
    ghost function Remaining(): seq<nat>
      reads this, bitmap, bitmap.data
      requires Valid()
    {
      SetFrom(bitmap.Bits(), index)
    }

    /** `jrtc_router_bitmap_init_iterator`. */
    constructor (bm: Bitmap)
      requires bm.Valid()
      ensures Valid() && bitmap == bm && index == 0
      ensures Remaining() == SetFrom(bm.Bits(), 0)
    {
      bitmap := bm;
      index := 0;
    }

    /**
     * `jrtc_router_bitmap_iterator_has_next`: scans a copy of the iterator, so
     * the iterator itself does not move; true iff a set bit remains.
     */
    method HasNext() returns (b: bool)
      requires Valid()
      ensures b <==> Remaining() != []
    {
      var i := index;
      while i < bitmap.size
        invariant index <= i <= bitmap.size
        invariant SetFrom(bitmap.Bits(), index) == SetFrom(bitmap.Bits(), i)
      {
        if Get(bitmap, i) != 0 {
          return true;
        }
        SetFromSkip(bitmap.Bits(), i);
        i := i + 1;
      }
      return false;
    }

    /**
     * `jrtc_router_bitmap_iterator_next`: returns the lowest remaining set
     * index and moves past it, or `(uint32_t)-1` with the index at the size
     * once none remain.
     */
    method Next() returns (r: nat)
      requires Valid()
      modifies this`index
      ensures Valid()
      ensures old(Remaining()) == [] ==> r == NO_MORE && index == bitmap.size && Remaining() == []
      ensures old(Remaining()) != [] ==> r == old(Remaining())[0] && index == r + 1 && Remaining() == old(Remaining())[1..]
    {
      while index < bitmap.size
        invariant Valid()
        invariant old(Remaining()) == Remaining()
        decreases bitmap.size - index
      {
        if Get(bitmap, index) != 0 {
          r := index;
          index := index + 1;
          return;
        }
        SetFromSkip(bitmap.Bits(), index);
        index := index + 1;
      }
      r := NO_MORE;
    }
  }
}
