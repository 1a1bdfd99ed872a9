/**
 * Fixed-width integers in network byte order, as Python's `struct` module packs
 * and unpacks them with the `'!'` prefix: `'h'`, `'i'` and `'q'` are signed
 * two's-complement integers of 2, 4 and 8 bytes, most significant byte first.
 */
module Bytes {

  type Byte = b: int | 0 <= b < 256

  function Pow256(n: nat): (r: nat)
    ensures r >= 1
  {
    if n == 0 then 1 else 256 * Pow256(n - 1)
  }

  /** The `width` low-order bytes of `x`, most significant first. */
  function ToBigEndian(x: nat, width: nat): (r: seq<Byte>)
    ensures |r| == width
  {
    if width == 0 then [] else ToBigEndian(x / 256, width - 1) + [x % 256]
  }

  /** The unsigned number a big-endian byte string denotes. */
  function FromBigEndian(bs: seq<Byte>): (r: nat)
    ensures r < Pow256(|bs|)
  {
    if bs == [] then 0
    else
      var high := FromBigEndian(bs[..|bs| - 1]);
      assert high <= Pow256(|bs| - 1) - 1;
      assert high * 256 <= Pow256(|bs|) - 256;
      high * 256 + bs[|bs| - 1]
  }

  /** Reading back the bytes of a number that fits the width gives the number. */
  lemma {:induction false} FromToBigEndian(x: nat, width: nat)
    requires x < Pow256(width)
    ensures FromBigEndian(ToBigEndian(x, width)) == x
  {
    if width > 0 {
      var bs := ToBigEndian(x, width);
      assert bs[..width - 1] == ToBigEndian(x / 256, width - 1);
      assert x / 256 < Pow256(width - 1);
      FromToBigEndian(x / 256, width - 1);
    }
  }

  /** Every byte string is the big-endian form of the number it denotes. */
  lemma {:induction false} ToFromBigEndian(bs: seq<Byte>)
    ensures ToBigEndian(FromBigEndian(bs), |bs|) == bs
  {
    if bs != [] {
      var init := bs[..|bs| - 1];
      var x := FromBigEndian(bs);
      assert x / 256 == FromBigEndian(init) && x % 256 == bs[|bs| - 1];
      ToFromBigEndian(init);
      assert bs == init + [bs[|bs| - 1]];
    }
  }

  /** A number below 256 is its last byte, preceded by zero bytes. */
  lemma {:induction false} ToBigEndianSmall(x: nat, width: nat)
    requires x < 256 && width > 0
    ensures ToBigEndian(x, width) == seq(width - 1, _ => 0) + [x]
  {
    if width > 1 {
      ToBigEndianSmall(0, width - 1);
    }
  }

  /** The signed range of a `width`-byte two's-complement integer (empty for width 0). */
  predicate InSignedRange(i: int, width: nat) {
    -(Pow256(width) / 2) <= i < Pow256(width) / 2
  }

  /** `struct.pack` of a signed integer at `width` bytes, in network order. */
  function PackSigned(i: int, width: nat): (r: seq<Byte>)
    requires InSignedRange(i, width)
    ensures |r| == width
    ensures width > 0 ==> (i < 0 <==> r[0] >= 128)
  {
    var u := if i < 0 then i + Pow256(width) else i;
    var r := ToBigEndian(u, width);
    if width > 0 then
      SignBit(u, width);
      r
    else r
  }

  /** `struct.unpack` of a signed integer from a big-endian byte string. */
  function UnpackSigned(bs: seq<Byte>): (r: int)
    ensures bs != [] ==> InSignedRange(r, |bs|)
  {
    var u := FromBigEndian(bs);
    var p := Pow256(|bs|);
    assert bs != [] ==> p / 2 * 2 == p by {
      if bs != [] {
        assert p == 256 * Pow256(|bs| - 1);
      }
    }
    if 2 * u >= p then u - p else u
  }

  /** The top byte of a `width`-byte number is at least 128 exactly when the number is in the upper half. */
  lemma SignBit(u: nat, width: nat)
    requires 0 < width && u < Pow256(width)
    ensures ToBigEndian(u, width)[0] >= 128 <==> 2 * u >= Pow256(width)
  {
    if width == 1 {
    } else {
      assert ToBigEndian(u, width)[0] == ToBigEndian(u / 256, width - 1)[0];
      assert u / 256 < Pow256(width - 1);
      SignBit(u / 256, width - 1);
    }
  }

  /** Unpacking what was packed gives back every in-range integer. */
  lemma UnpackPackSigned(i: int, width: nat)
    requires InSignedRange(i, width)
    ensures UnpackSigned(PackSigned(i, width)) == i
  {
    var u := if i < 0 then i + Pow256(width) else i;
    FromToBigEndian(u, width);
  }

  /** Packing what was unpacked gives back every non-empty byte string. */
  lemma PackUnpackSigned(bs: seq<Byte>)
    requires bs != []
    ensures PackSigned(UnpackSigned(bs), |bs|) == bs
  {
    ToFromBigEndian(bs);
  }
}
