/** Bytes on the wire, and integers in network byte order. */
module Bytes {
  type byte = x: int | 0 <= x < 256
  type bytes = seq<byte>

  function Pow256(w: nat): (p: nat)
    ensures 0 < p
  {
    if w == 0 then 1 else 256 * Pow256(w - 1)
  }

  /** The `w` low-order bytes of `n`, most significant first (htonl, htobe64). */
  function BigEndian(n: nat, w: nat): (b: bytes)
    ensures |b| == w
    decreases w, n
  {
    if w == 0 then [] else BigEndian(n / 256, w - 1) + [n % 256]
  }

  /** The integer spelled by `b`, most significant byte first (ntohl, be64toh). */
  function FromBigEndian(b: bytes): nat {
    Digits(b, |b|)
  }

  function Digits(b: bytes, k: nat): (n: nat)
    requires k <= |b|
    ensures n < Pow256(k)
    decreases k, b
  {
    if k == 0 then 0 else 256 * Digits(b, k - 1) + b[k - 1]
  }

  lemma {:induction false} DigitsAgree(a: bytes, b: bytes, k: nat)
    requires k <= |a| && k <= |b| && a[..k] == b[..k]
    ensures Digits(a, k) == Digits(b, k)
  {
    if k != 0 {
      assert a[..k][..k - 1] == a[..k - 1] && b[..k][..k - 1] == b[..k - 1];
      assert a[..k][k - 1] == b[..k][k - 1];
      DigitsAgree(a, b, k - 1);
    }
  }

  lemma {:induction false} BigEndianRoundTrip(n: nat, w: nat)
    requires n < Pow256(w)
    ensures FromBigEndian(BigEndian(n, w)) == n
  {
    if w != 0 {
      var b, c := BigEndian(n, w), BigEndian(n / 256, w - 1);
      BigEndianRoundTrip(n / 256, w - 1);
      assert b[..w - 1] == c && c[..w - 1] == c;
      DigitsAgree(b, c, w - 1);
    }
  }

  lemma Widths()
    ensures Pow256(4) == 0x1_0000_0000
    ensures Pow256(8) == 0x1_0000_0000_0000_0000
  {
    assert Pow256(1) == 256;
    assert Pow256(2) == 256 * Pow256(1);
    assert Pow256(3) == 256 * Pow256(2);
    assert Pow256(4) == 256 * Pow256(3);
    assert Pow256(5) == 256 * Pow256(4);
    assert Pow256(6) == 256 * Pow256(5);
    assert Pow256(7) == 256 * Pow256(6);
    assert Pow256(8) == 256 * Pow256(7);
  }

  /** The value of four bytes in network order, place by place. */
  function Places4(b: bytes): nat
    requires |b| == 4
  {
    b[0] as int * 0x100_0000 + b[1] as int * 0x1_0000 + b[2] as int * 0x100 + b[3] as int
  }

  /** The value of eight bytes in network order, place by place. */
  function Places8(b: bytes): nat
    requires |b| == 8
  {
    b[0] as int * 0x100_0000_0000_0000 + b[1] as int * 0x1_0000_0000_0000 + b[2] as int * 0x100_0000_0000
    + b[3] as int * 0x1_0000_0000
    + b[4] as int * 0x100_0000 + b[5] as int * 0x1_0000 + b[6] as int * 0x100 + b[7] as int
  }

  lemma FourPlaces(b: bytes)
    requires |b| == 4
    ensures FromBigEndian(b) == Places4(b)
  {
    assert Digits(b, 1) == b[0];
    assert Digits(b, 2) == 256 * Digits(b, 1) + b[1];
    assert Digits(b, 3) == 256 * Digits(b, 2) + b[2];
    assert Digits(b, 4) == 256 * Digits(b, 3) + b[3];
  }

  lemma EightPlaces(b: bytes)
    requires |b| == 8
    ensures FromBigEndian(b) == Places8(b)
  {
    assert Digits(b, 1) == b[0];
    assert Digits(b, 2) == 256 * Digits(b, 1) + b[1];
    assert Digits(b, 3) == 256 * Digits(b, 2) + b[2];
    assert Digits(b, 4) == 256 * Digits(b, 3) + b[3];
    assert Digits(b, 5) == 256 * Digits(b, 4) + b[4];
    assert Digits(b, 6) == 256 * Digits(b, 5) + b[5];
    assert Digits(b, 7) == 256 * Digits(b, 6) + b[6];
    assert Digits(b, 8) == 256 * Digits(b, 7) + b[7];
  }
}
