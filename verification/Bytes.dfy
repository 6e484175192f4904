/** What the framing, the chunk format, the transfers and the room codes share: optional and failing
    results, bytes, machine words, hex digits and big-endian numbers. */
module Bytes {

  datatype Option<T> = None | Some(value: T)

  datatype Result<T, E> = Ok(value: T) | Err(fault: E)

  type byte = x: int | 0 <= x < 256

  const U32 := 0x1_0000_0000
  const U64 := 0x1_0000_0000_0000_0000

  // ----- hex digits -----

  predicate IsHex(c: char) { '0' <= c <= '9' || 'a' <= c <= 'f' || 'A' <= c <= 'F' }

  function HexVal(c: char): (n: nat)
    requires IsHex(c)
    ensures n < 16
  {
    if '0' <= c <= '9' then c as int - '0' as int
    else if 'a' <= c <= 'f' then c as int - 'a' as int + 10
    else c as int - 'A' as int + 10
  }

  // ----- big-endian numbers -----

  function Pow256(width: nat): (p: nat)
    ensures p > 0
  {
    if width == 0 then 1 else 256 * Pow256(width - 1)
  }

  /** The low `width` bytes of `n`, most significant first: `to_be_bytes` of a `width`-byte integer. */
  function ToBytes(n: nat, width: nat): (bs: seq<byte>)
    ensures |bs| == width
  {
    if width == 0 then [] else ToBytes(n / 256, width - 1) + [n % 256]
  }

  /** `from_be_bytes`. */
  function FromBytes(bs: seq<byte>): (n: nat)
    ensures n < Pow256(|bs|)
  {
    if bs == [] then 0 else 256 * FromBytes(bs[..|bs| - 1]) + bs[|bs| - 1]
  }

  lemma {:induction false} FromToBytes(n: nat, width: nat)
    ensures FromBytes(ToBytes(n, width)) == n % Pow256(width)
  {
    if width > 0 {
      FromToBytes(n / 256, width - 1);
      var p := Pow256(width - 1);
      assert ToBytes(n, width)[..width - 1] == ToBytes(n / 256, width - 1);
      ModShift(n, p);
    }
  }

  lemma ModShift(n: nat, p: nat)
    requires p > 0
    ensures 256 * (n / 256 % p) + n % 256 == n % (256 * p)
  {
    var q, r := n / 256 / p, n / 256 % p;
    var m := 256 * r + n % 256;
    assert n / 256 == q * p + r;
    assert n == (256 * p) * q + m by { assert 256 * (q * p) == (256 * p) * q; }
    assert 0 <= m < 256 * p;
    RemainderUnique(n, 256 * p, q, m);
  }

  lemma RemainderUnique(n: nat, d: nat, q: nat, m: nat)
    requires m < d && n == d * q + m
    ensures n % d == m && n / d == q
  {
    var q' := n / d;
    Multiples(d, q, q');
    Multiples(d, q', q);
  }

  lemma {:induction false} Multiples(d: nat, q: int, k: int)
    ensures q < k ==> d * q + d <= d * k
    decreases k - q
  {
    if q < k {
      assert d * (k - 1) + d == d * k;
      Multiples(d, q, k - 1);
    }
  }

  lemma {:induction false} ToFromBytes(bs: seq<byte>)
    ensures ToBytes(FromBytes(bs), |bs|) == bs
  {
    if bs != [] {
      var front, last := bs[..|bs| - 1], bs[|bs| - 1];
      ToFromBytes(front);
      assert FromBytes(bs) / 256 == FromBytes(front) && FromBytes(bs) % 256 == last;
    }
  }

  lemma Widths()
    ensures Pow256(1) == 256 && Pow256(2) == 65536 && Pow256(4) == 0x1_0000_0000
    ensures Pow256(6) == 0x1_0000_0000_0000
    ensures Pow256(4) == U32 && Pow256(8) == U64
  {
    assert Pow256(1) == 256 * Pow256(0);
    assert Pow256(2) == 256 * Pow256(1);
    assert Pow256(3) == 256 * Pow256(2);
    assert Pow256(4) == 256 * Pow256(3);
    assert Pow256(5) == 256 * Pow256(4);
    assert Pow256(7) == 256 * Pow256(6);
  }

  /** The number four bytes spell, the most significant first. */
  function Word(a: nat, b: nat, c: nat, d: nat): nat { 0x100_0000 * a + 0x1_0000 * b + 0x100 * c + d }

  /** The most significant byte comes first. */
  lemma FourBytes(bs: seq<byte>)
    requires |bs| == 4
    ensures FromBytes(bs) == Word(bs[0], bs[1], bs[2], bs[3])
  {
    assert bs[..3][..2] == bs[..2] && bs[..3][2] == bs[2];
    assert bs[..2][..1] == bs[..1] && bs[..2][1] == bs[1];
    assert bs[..1][..0] == [] && bs[..1][0] == bs[0];
    assert FromBytes(bs[..1]) == bs[0];
    assert FromBytes(bs[..2]) == 256 * FromBytes(bs[..1]) + bs[1];
  }

  /** A number that fits survives the round trip. */
  lemma NumberRoundTrip(n: nat, width: nat)
    requires n < Pow256(width)
    ensures FromBytes(ToBytes(n, width)) == n
  {
    FromToBytes(n, width);
  }
}
