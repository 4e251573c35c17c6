// The network-order integer codec of the buffer: htobeN/beNtoh followed or
// preceded by a memcpy, for the four signed widths the source offers.
module Codec {

  type Byte = x: int | 0 <= x < 256

  function Pow256(w: nat): (p: nat)
    ensures p > 0
  {
    if w == 0 then 1 else 256 * Pow256(w - 1)
  }

  // Width in bytes of int8_t, int16_t, int32_t and int64_t.
  predicate IsWidth(w: nat) {
    w == 1 || w == 2 || w == 4 || w == 8
  }

  // The values of a signed integer of w bytes.
  predicate Fits(w: nat, x: int)
    requires IsWidth(w)
  {
    0 - Pow256(w) <= 2 * x < Pow256(w)
  }

  // Most significant byte first.
  function EncodeNat(w: nat, u: nat): (bs: seq<Byte>)
    requires u < Pow256(w)
    ensures |bs| == w
  {
    if w == 0 then [] else EncodeNat(w - 1, u / 256) + [u % 256]
  }

  function DecodeNat(bs: seq<Byte>): (u: nat)
    ensures u < Pow256(|bs|)
  {
    if bs == [] then 0 else DecodeNat(bs[..|bs| - 1]) * 256 + bs[|bs| - 1]
  }

  // Two's complement.
  function Encode(w: nat, x: int): (bs: seq<Byte>)
    requires IsWidth(w) && Fits(w, x)
    ensures |bs| == w
  {
    EncodeNat(w, if x < 0 then x + Pow256(w) else x)
  }

  function Decode(bs: seq<Byte>): (x: int)
    requires IsWidth(|bs|)
    ensures Fits(|bs|, x)
  {
    var u := DecodeNat(bs);
    if 2 * u < Pow256(|bs|) then u else u - Pow256(|bs|)
  }

  lemma {:induction false} DecodeEncodeNat(w: nat, u: nat)
    requires u < Pow256(w)
    ensures DecodeNat(EncodeNat(w, u)) == u
  {
    if w > 0 {
      DecodeEncodeNat(w - 1, u / 256);
      var bs := EncodeNat(w, u);
      assert bs[..w - 1] == EncodeNat(w - 1, u / 256);
    }
  }

  lemma {:induction false} EncodeDecodeNat(bs: seq<Byte>)
    ensures EncodeNat(|bs|, DecodeNat(bs)) == bs
  {
    if bs != [] {
      EncodeDecodeNat(bs[..|bs| - 1]);
      assert bs == bs[..|bs| - 1] + [bs[|bs| - 1]];
    }
  }

  // Every representable value survives the trip through the wire format.
  lemma DecodeEncode(w: nat, x: int)
    requires IsWidth(w) && Fits(w, x)
    ensures Decode(Encode(w, x)) == x
  {
    var u := if x < 0 then x + Pow256(w) else x;
    DecodeEncodeNat(w, u);
    assert Encode(w, x) == EncodeNat(w, u);
  }

  // ... and every byte pattern is the encoding of the value it decodes to.
  lemma EncodeDecode(bs: seq<Byte>)
    requires IsWidth(|bs|)
    ensures Encode(|bs|, Decode(bs)) == bs
  {
    var u, x, p := DecodeNat(bs), Decode(bs), Pow256(|bs|);
    EncodeDecodeNat(bs);
    assert u == if x < 0 then x + p else x;
  }

  lemma DivDiv(u: nat, p: nat)
    requires p > 0
    ensures u / 256 / p == u / (256 * p)
  {
    var q := u / (256 * p);
    var r := u % (256 * p);
    assert u == (256 * p) * q + r;
    assert (256 * p) * q == 256 * (p * q);
    assert u / 256 == p * q + r / 256;
    assert 0 <= r / 256 < p;
    QuotientUnique(u / 256, p, q, r / 256);
  }

  lemma ProductSign(k: int, p: nat)
    requires k >= 0
    ensures k * p >= 0
  {
  }

  // A multiple of p other than zero is at least p away from it.
  lemma LargeMultiple(d: int, p: nat)
    ensures d >= 1 ==> d * p >= p
    ensures d <= -1 ==> d * p <= 0 - p
  {
    if d >= 1 {
      ProductSign(d - 1, p);
      assert (d - 1) * p == d * p - p;
    } else if d <= -1 {
      ProductSign(-1 - d, p);
      assert (-1 - d) * p == 0 - p - d * p;
    }
  }

  lemma QuotientUnique(n: int, p: nat, q: int, r: nat)
    requires p > 0 && r < p && n == p * q + r
    ensures n / p == q && n % p == r
  {
    var d := n / p - q;
    assert n == p * (n / p) + n % p;
    assert d * p == p * (n / p) - p * q;
    LargeMultiple(d, p);
  }

  // The byte order, stated without the codec's own recursion: byte i of the
  // wire format is the base-256 digit of weight 256^(w-1-i).
  lemma {:induction false} NetworkOrder(w: nat, u: nat, i: nat)
    requires u < Pow256(w) && i < w
    ensures EncodeNat(w, u)[i] == (u / Pow256(w - 1 - i)) % 256
  {
    if i < w - 1 {
      NetworkOrder(w - 1, u / 256, i);
      DivDiv(u, Pow256(w - 2 - i));
    } else {
      assert Pow256(0) == 1;
    }
  }

  // x in two's complement, most significant byte first, stated without the codec:
  // byte i is the digit of weight 256^(w-1-i) of x modulo 256^w.
  predicate BigEndian(w: nat, x: int, bs: seq<Byte>) {
    |bs| == w && forall i :: 0 <= i < w ==> bs[i] == ((x % Pow256(w)) / Pow256(w - 1 - i)) % 256
  }

  lemma WrapOnce(x: int, p: nat)
    requires 0 - p <= 2 * x < p
    ensures x % p == if x < 0 then x + p else x
  {
    var u := if x < 0 then x + p else x;
    var q := if x < 0 then -1 else 0;
    assert x == p * q + u && 0 <= u < p;
    QuotientUnique(x, p, q, u);
  }

  // What appendIntN and prependIntN put on the wire.
  lemma EncodeOrder(w: nat, x: int)
    requires IsWidth(w) && Fits(w, x)
    ensures BigEndian(w, x, Encode(w, x))
  {
    WrapOnce(x, Pow256(w));
    forall i | 0 <= i < w
      ensures Encode(w, x)[i] == ((x % Pow256(w)) / Pow256(w - 1 - i)) % 256
    {
      NetworkOrder(w, x % Pow256(w), i);
    }
  }

  // What peekIntN makes of it: the one value of that width the bytes stand for.
  lemma DecodeOrder(bs: seq<Byte>)
    requires IsWidth(|bs|)
    ensures BigEndian(|bs|, Decode(bs), bs)
    ensures forall y :: Fits(|bs|, y) && BigEndian(|bs|, y, bs) ==> y == Decode(bs)
  {
    EncodeDecode(bs);
    EncodeOrder(|bs|, Decode(bs));
    forall y | Fits(|bs|, y) && BigEndian(|bs|, y, bs)
      ensures y == Decode(bs)
    {
      EncodeOrder(|bs|, y);
      assert Encode(|bs|, y) == bs;
      DecodeEncode(|bs|, y);
    }
  }

  datatype Field = Field(width: nat, value: int)

  predicate ValidField(f: Field) {
    IsWidth(f.width) && Fits(f.width, f.value)
  }

  predicate ValidFields(fs: seq<Field>) {
    forall i :: 0 <= i < |fs| ==> ValidField(fs[i])
  }

  function Wire(fs: seq<Field>): (bs: seq<Byte>)
    requires ValidFields(fs)
  {
    if fs == [] then [] else Encode(fs[0].width, fs[0].value) + Wire(fs[1..])
  }
}
