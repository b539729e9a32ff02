/**
 * `GenerateHashFromStrings` (tools/jrtc-ctl/common/hash.go): the parts are
 * concatenated, each after its decimal index, and the SHA-1 digest of the
 * result is cut to 16 bytes. SHA-1 is a parameter.
 */
module HashInput {
  import opened Wrappers
  import opened DecimalText

  const NIL_PARTS_ERROR := "stream ID components cannot be nil"

  /** The text hashed: `strconv.Itoa(i)` then part `i`, for every part in order. */
  function Input(parts: seq<string>): (r: string)
    ensures |r| >= |parts|
    ensures parts != [] ==> var last := parts[|parts| - 1]; |r| >= |last| + 1 && r[|r| - |last|..] == last
  {
    if parts == [] then "" else Input(parts[..|parts| - 1]) + Decimal(|parts| - 1) + parts[|parts| - 1]
  }

  /** The loop that builds the text. */
  method BuildInput(parts: seq<string>) returns (s: string)
    ensures s == Input(parts)
  {
    s := "";
    var i := 0;
    while i < |parts|
      invariant 0 <= i <= |parts|
      invariant s == Input(parts[..i])
    {
      assert parts[..i + 1][..i] == parts[..i];
      s := s + Decimal(i);
      s := s + parts[i];
      i := i + 1;
    }
    assert parts[..i] == parts;
  }

  /** `GenerateHashFromStrings`, with `sha1` giving 20-byte digests. */
  method GenerateHashFromStrings(parts: seq<string>, sha1: string -> seq<bv8>) returns (r: Result<seq<bv8>>)
    requires forall m :: |sha1(m)| == 20
    ensures parts == [] ==> r == Err(NIL_PARTS_ERROR)
    ensures parts != [] ==> r.Ok? && |r.value| == 16 && r.value == sha1(Input(parts))[..16]
  {
    if |parts| == 0 {
      return Err(NIL_PARTS_ERROR);
    }
    var s := BuildInput(parts);
    var hash := sha1(s);
    return Ok(hash[..16]);
  }

  /** The input starts with "0" and the first part, and each part follows its own index. */
  lemma {:induction false} InputLayout(parts: seq<string>, x: string)
    ensures Input(parts + [x]) == Input(parts) + Decimal(|parts|) + x
    ensures |parts| > 0 ==> Decimal(0) + parts[0] <= Input(parts)
  {
    assert (parts + [x])[..|parts|] == parts;
    if |parts| > 0 {
      InputStartsWithFirst(parts);
    }
  }

  lemma {:induction false} InputStartsWithFirst(parts: seq<string>)
    requires |parts| > 0
    ensures Decimal(0) + parts[0] <= Input(parts)
  {
    if |parts| > 1 {
      InputStartsWithFirst(parts[..|parts| - 1]);
    } else {
      assert parts[..0] == [];
    }
  }

  /**
   * The encoding is ambiguous: a single part holding "1" between two texts
   * hashes the same as those texts as two parts, so ["a1b"] and ["a", "b"]
   * give the same id whatever the hash.
   */
  lemma SplitAtOneCollides(a: string, b: string, sha1: string -> seq<bv8>)
    ensures Input([a + "1" + b]) == Input([a, b])
    ensures sha1(Input([a + "1" + b])) == sha1(Input([a, b]))
  {
    InputOfTwo(a, b);
    InputOfOne(a + "1" + b);
    assert "0" + (a + "1" + b) == "0" + a + "1" + b;
  }

  /** The collision on concrete parts: both inputs are "0a1b". */
  lemma SplitAtOneExample()
    ensures Input(["a1b"]) == "0a1b" == Input(["a", "b"])
  {
    InputOfTwo("a", "b");
    InputOfOne("a1b");
  }

  lemma InputOfOne(x: string)
    ensures Input([x]) == "0" + x
  {
    assert Decimal(0) == "0";
    assert [x][..0] == [];
  }

  lemma InputOfTwo(x: string, y: string)
    ensures Input([x, y]) == "0" + x + "1" + y
  {
    assert Decimal(1) == "1";
    assert [x, y][..1] == [x];
    InputOfOne(x);
  }
}
