/** Coordinates of an elliptic-curve key in a JWK (section 6.2.1.2 of RFC 7518): fixed-width
    big-endian octets on the way out, a plain big-endian number on the way in. Base64url aside. */
module JwkCoordinates {
  import opened Basics

  newtype Byte = n: int | 0 <= n < 256

  function Pow256(k: nat): nat
  {
    if k == 0 then 1 else 256 * Pow256(k - 1)
  }

  /** The shortest big-endian form; zero has no bytes at all. */
  function Bytes(n: nat): seq<Byte>
  {
    if n == 0 then [] else Bytes(n / 256) + [(n % 256) as Byte]
  }

  /** A number from big-endian bytes, leading zeros or not. */
  function FromBytes(bs: seq<Byte>): nat
  {
    if bs == [] then 0 else 256 * FromBytes(bs[..|bs| - 1]) + bs[|bs| - 1] as nat
  }

  function CurveBits(crv: string): Option<nat>
  {
    match crv
    case "P-256" => Some(256)
    case "P-384" => Some(384)
    case "P-521" => Some(521)
    case _ => None
  }

  function ByteSize(bits: nat): nat
  {
    (bits + 7) / 8
  }

  lemma {:induction false} BytesRoundTrip(n: nat)
    ensures FromBytes(Bytes(n)) == n
  {
    if n > 0 {
      BytesRoundTrip(n / 256);
      var bs := Bytes(n);
      assert bs[..|bs| - 1] == Bytes(n / 256);
    }
  }

  /** The shortest form fits `k` bytes exactly when the number is below 256 to the k. */
  lemma {:induction false} BytesFit(n: nat, k: nat)
    ensures |Bytes(n)| <= k <==> n < Pow256(k)
  {
    if n == 0 {
      PowPositive(k);
    } else if k > 0 {
      BytesFit(n / 256, k - 1);
    }
  }

  lemma {:induction false} PowPositive(k: nat)
    ensures Pow256(k) > 0
  {
    if k > 0 {
      PowPositive(k - 1);
    }
  }

  function Zeros(k: nat): seq<Byte>
  {
    seq(k, _ => 0)
  }

  lemma {:induction false} LeadingZeros(k: nat, bs: seq<Byte>)
    ensures FromBytes(Zeros(k) + bs) == FromBytes(bs)
  {
    if bs == [] {
      if k > 0 {
        assert Zeros(k)[..k - 1] == Zeros(k - 1);
        assert Zeros(k) + [] == Zeros(k) && Zeros(k - 1) + [] == Zeros(k - 1);
        LeadingZeros(k - 1, []);
      }
    } else {
      LeadingZeros(k, bs[..|bs| - 1]);
      assert (Zeros(k) + bs)[..|Zeros(k) + bs| - 1] == Zeros(k) + bs[..|bs| - 1];
    }
  }

  /** Copies the bytes to the end of a zeroed buffer. */
  method PadLeft(bs: seq<Byte>, size: nat) returns (octets: seq<Byte>)
    requires |bs| <= size
    ensures octets == Zeros(size - |bs|) + bs
  {
    var padded := new Byte[size](_ => 0);
    var from := size - |bs|;
    for i := 0 to |bs|
      invariant padded[..from] == Zeros(from)
      invariant padded[from..from + i] == bs[..i]
    {
      padded[from + i] := bs[i];
    }
    assert padded[..] == padded[..from] + padded[from..from + |bs|];
    octets := padded[..];
  }

  /** Encoding a coordinate: the shortest form, padded to the curve's size. The slice is out of range
      when the coordinate does not fit. */
  method EncodeCoordinate(coordinate: nat, bits: nat) returns (octets: Option<seq<Byte>>)
    ensures octets.Some? <==> coordinate < Pow256(ByteSize(bits))
    ensures octets.Some? ==> |octets.value| == ByteSize(bits) && FromBytes(octets.value) == coordinate
  {
    var bs, size := Bytes(coordinate), ByteSize(bits);
    BytesFit(coordinate, size);
    if |bs| > size {
      return None;
    }
    var padded := PadLeft(bs, size);
    LeadingZeros(size - |bs|, bs);
    BytesRoundTrip(coordinate);
    return Some(padded);
  }

  datatype PublicKey = PublicKey(bits: nat, x: nat, y: nat)

  /** Decoding the key of a JWK. */
  function Decode(crv: string, x: seq<Byte>, y: seq<Byte>): Option<PublicKey>
  {
    match CurveBits(crv)
    case None => None
    case Some(bits) => Some(PublicKey(bits, FromBytes(x), FromBytes(y)))
  }

  /** The octets that a coordinate takes on each of the three curves. */
  function Octets(crv: string): nat
  {
    if crv == "P-256" then 32 else if crv == "P-384" then 48 else if crv == "P-521" then 66 else 0
  }

  lemma CurveSizes(crv: string)
    ensures CurveBits(crv).Some? <==> crv == "P-256" || crv == "P-384" || crv == "P-521"
    ensures CurveBits(crv).Some? ==> ByteSize(CurveBits(crv).value) == Octets(crv)
    ensures CurveBits("P-256") == Some(256) && CurveBits("P-384") == Some(384) && CurveBits("P-521") == Some(521)
  {
  }

  /** Publishing a key and reading it back gives the same point, over octets of the curve's own size. */
  method PublishAndRead(crv: string, key: PublicKey) returns (xs: seq<Byte>, ys: seq<Byte>, read: Option<PublicKey>)
    requires CurveBits(crv) == Some(key.bits)
    requires key.x < Pow256(Octets(crv)) && key.y < Pow256(Octets(crv))
    ensures |xs| == Octets(crv) && |ys| == Octets(crv)
    ensures read == Some(key)
  {
    CurveSizes(crv);
    var x := EncodeCoordinate(key.x, key.bits);
    var y := EncodeCoordinate(key.y, key.bits);
    xs, ys := x.value, y.value;
    read := Decode(crv, xs, ys);
  }

  /** Any other curve name is turned down. */
  lemma UnknownCurve(crv: string, x: seq<Byte>, y: seq<Byte>)
    ensures Decode(crv, x, y).None? <==> crv != "P-256" && crv != "P-384" && crv != "P-521"
  {
    CurveSizes(crv);
  }
}
