/** Bytes, fixed-width big-endian numbers and the refusals of the codecs. */
module Bytes {
  type byte = x: int | 0 <= x < 256
  type u16 = x: int | 0 <= x < 0x1_0000
  type u64 = x: int | 0 <= x < 0x1_0000_0000_0000_0000

  /** A buffer whose size the source can represent. */
  type Buffer = b: seq<byte> | |b| < 0x1_0000_0000_0000_0000

  const DIGEST_SIZE: nat := 32

  /** The bytes of a SHA-256 digest. */
  type Digest = d: seq<byte> | |d| == DIGEST_SIZE witness seq(DIGEST_SIZE, _ => 0)

  function Power(n: nat): (p: nat)
    ensures p > 0
  {
    if n == 0 then 1 else 256 * Power(n - 1)
  }

  /** The low `width` bytes of `value`, most significant first. */
  function BigEndian(value: nat, width: nat): (s: seq<byte>)
    ensures |s| == width
  {
    if width == 0 then [] else BigEndian(value / 256, width - 1) + [value % 256]
  }

  function Number(s: seq<byte>): nat {
    if s == [] then 0 else Number(s[..|s| - 1]) * 256 + s[|s| - 1]
  }

  function U16(value: u16): (s: seq<byte>)
    ensures |s| == 2
  {
    BigEndian(value, 2)
  }

  function U64(value: u64): (s: seq<byte>)
    ensures |s| == 8
  {
    BigEndian(value, 8)
  }

  function Flag(value: bool): (s: seq<byte>)
    ensures |s| == 1
  {
    [if value then 1 else 0]
  }

  /** Bytes behind their length. */
  function Text(text: Buffer): (s: seq<byte>)
    ensures |s| == 8 + |text|
  {
    U64(|text|) + text
  }

  lemma Powers()
    ensures Power(1) == 0x100 && Power(2) == 0x1_0000 && Power(8) == 0x1_0000_0000_0000_0000
  {
    assert Power(1) == 256 * Power(0) && Power(2) == 256 * Power(1) && Power(3) == 256 * Power(2);
    assert Power(4) == 256 * Power(3) && Power(5) == 256 * Power(4) && Power(6) == 256 * Power(5);
  }

  lemma {:induction false} NumberOfBigEndian(value: nat, width: nat)
    requires value < Power(width)
    ensures Number(BigEndian(value, width)) == value
  {
    if width > 0 {
      NumberOfBigEndian(value / 256, width - 1);
      var s := BigEndian(value, width);
      assert s[..width - 1] == BigEndian(value / 256, width - 1);
    }
  }

  lemma {:induction false} BigEndianOfNumber(s: seq<byte>)
    ensures Number(s) < Power(|s|)
    ensures BigEndian(Number(s), |s|) == s
  {
    if s != [] {
      BigEndianOfNumber(s[..|s| - 1]);
      assert s == s[..|s| - 1] + [s[|s| - 1]];
    }
  }

  /** `value` shifted right by `n` bytes. */
  function Shifted(value: nat, n: nat): nat {
    if n == 0 then value else Shifted(value, n - 1) / 256
  }

  /** Emitting one more byte of a number. */
  lemma EmitByte(value: nat, n: nat, width: nat)
    ensures BigEndian(Shifted(value, n + 1), width) + [Shifted(value, n) % 256] == BigEndian(Shifted(value, n), width + 1)
  {
  }

  /** Two concatenations agree only if equally long heads agree. */
  lemma SplitAt(a: seq<byte>, s: seq<byte>, b: seq<byte>, t: seq<byte>)
    requires |a| == |b| && a + s == b + t
    ensures a == b && s == t
  {
    assert a == (a + s)[..|a|] && b == (b + t)[..|a|];
    assert s == (a + s)[|a|..] && t == (b + t)[|a|..];
  }

  /** Appending piece by piece, read from the other end. */
  lemma Regrouped(before: seq<byte>, s: seq<byte>)
    ensures forall rest: seq<byte> {:trigger s + rest} :: before + (s + rest) == (before + s) + rest
  {
    forall rest: seq<byte> ensures before + (s + rest) == (before + s) + rest {
    }
  }

  /** Five pieces and what follows them. */
  lemma Flat(a: seq<byte>, b: seq<byte>, c: seq<byte>, d: seq<byte>, e: seq<byte>, rest: seq<byte>)
    ensures (a + (b + (c + (d + e)))) + rest == a + (b + (c + (d + (e + rest))))
  {
    assert (d + e) + rest == d + (e + rest);
    assert (c + (d + e)) + rest == c + (d + (e + rest));
    assert (b + (c + (d + e))) + rest == b + (c + (d + (e + rest)));
  }
}
