/** The revocation bitstring: generation as in section 3.3 and reading as in section 3.4 of the W3C
    Bitstring Status List v1.0, compression and encoding aside. */
module StatusList {

  /** The W3C minimum of 16 KB. */
  const STATUS_LIST_SIZE: int := 131_072

  /** The bit at a position, counted from the most significant bit of the first byte. */
  predicate BitAt(bytes: seq<bv8>, index: int)
    requires 0 <= index < 8 * |bytes|
  {
    bytes[index / 8] & (0x80 >> (index % 8)) != 0
  }

  const MASKS: seq<bv8> := [0x80, 0x40, 0x20, 0x10, 0x08, 0x04, 0x02, 0x01]

  /** Position 0 is the most significant bit of the first byte, position 7 the least. */
  lemma BitOrder(bytes: seq<bv8>, index: int)
    requires 0 <= index < 8 * |bytes|
    ensures BitAt(bytes, index) <==> bytes[index / 8] & MASKS[index % 8] != 0
  {
    var cases := [0, 1, 2, 3, 4, 5, 6, 7];
    assert index % 8 in cases;
  }

  /** Setting one position of a byte leaves the other seven alone. */
  lemma SetOneBit(b: bv8, i: int, j: int)
    requires 0 <= i < 8 && 0 <= j < 8
    ensures ((b | (1 << (7 - i))) & (0x80 >> j) != 0) <==> (b & (0x80 >> j) != 0) || i == j
  {
    var cases := [0, 1, 2, 3, 4, 5, 6, 7];
    assert i in cases && j in cases;
  }

  method BuildBitstring(revoked: seq<int>) returns (bytes: seq<bv8>)
    ensures |bytes| == 16_384
    ensures forall k :: 0 <= k < 131_072 ==> (BitAt(bytes, k) <==> k in revoked)
  {
    var bits := new bv8[STATUS_LIST_SIZE / 8](_ => 0);
    for n := 0 to |revoked|
      invariant forall k :: 0 <= k < STATUS_LIST_SIZE ==> (BitAt(bits[..], k) <==> k in revoked[..n])
    {
      var idx := revoked[n];
      assert revoked[..n + 1] == revoked[..n] + [idx];
      if idx < 0 || idx >= STATUS_LIST_SIZE {
        continue;
      }
      ghost var before := bits[..];
      bits[idx / 8] := bits[idx / 8] | (1 << (7 - idx % 8));
      forall k | 0 <= k < STATUS_LIST_SIZE ensures BitAt(bits[..], k) <==> k in revoked[..n + 1] {
        if k / 8 == idx / 8 {
          SetOneBit(before[idx / 8], idx % 8, k % 8);
        }
      }
    }
    assert revoked[..|revoked|] == revoked;
    bytes := bits[..];
  }
}
