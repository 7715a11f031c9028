/** Big-endian byte strings and the reference generator's two's-complement writer. */
module Bytes {
  import opened Common

  type byte = x: int | 0 <= x < 256

  function Pow256(n: nat): (p: nat)
    ensures p >= 1
  {
    if n == 0 then 1 else 256 * Pow256(n - 1)
  }

  /** The last `n` bytes of `v`, most significant first. */
  function BigEndian(v: nat, n: nat): (bs: seq<byte>)
    ensures |bs| == n
  {
    if n == 0 then [] else BigEndian(v / 256, n - 1) + [v % 256]
  }

  function Value(bs: seq<byte>): nat {
    if bs == [] then 0 else Value(bs[..|bs| - 1]) * 256 + bs[|bs| - 1]
  }

  lemma {:induction false} ValueBound(bs: seq<byte>)
    ensures Value(bs) < Pow256(|bs|)
  {
    if bs != [] {
      ValueBound(bs[..|bs| - 1]);
    }
  }

  lemma {:induction false} BigEndianValue(bs: seq<byte>)
    ensures BigEndian(Value(bs), |bs|) == bs
  {
    if bs != [] {
      BigEndianValue(bs[..|bs| - 1]);
    }
  }

  lemma {:induction false} ValueBigEndian(v: nat, n: nat)
    requires v < Pow256(n)
    ensures Value(BigEndian(v, n)) == v
  {
    if n > 0 {
      assert v / 256 < Pow256(n - 1);
      ValueBigEndian(v / 256, n - 1);
    }
  }

  lemma BigEndianInjective(v: nat, w: nat, n: nat)
    requires v < Pow256(n) && w < Pow256(n) && BigEndian(v, n) == BigEndian(w, n)
    ensures v == w
  {
    ValueBigEndian(v, n);
    ValueBigEndian(w, n);
  }

  lemma {:induction false} ValueConcat(xs: seq<byte>, ys: seq<byte>)
    ensures Value(xs + ys) == Value(xs) * Pow256(|ys|) + Value(ys)
    decreases |ys|
  {
    if ys == [] {
      assert xs + ys == xs;
    } else {
      var front, last := ys[..|ys| - 1], ys[|ys| - 1];
      assert (xs + ys)[..|xs + ys| - 1] == xs + front;
      ValueConcat(xs, front);
      ShiftOne(Value(xs), Pow256(|front|), Value(front), last);
    }
  }

  /** One more byte multiplies what stands before it by 256. */
  lemma ShiftOne(high: nat, power: nat, low: nat, last: nat)
    ensures (high * power + low) * 256 + last == high * (256 * power) + (low * 256 + last)
  {
    assert high * (256 * power) == (high * power) * 256;
  }

  lemma ValueOfOne(b: byte)
    ensures Value([b]) == b
  {
    assert [b][..0] == [];
    assert Value([b][..0]) == 0;
  }

  lemma ValueHead(bs: seq<byte>)
    requires bs != []
    ensures Value(bs) == bs[0] * Pow256(|bs| - 1) + Value(bs[1..])
  {
    var head, rest := [bs[0]], bs[1..];
    ValueOfOne(bs[0]);
    ValueConcat(head, rest);
    assert head + rest == bs;
  }

  // ----- i128ToBigEndian -----

  const TWO_64: nat := 0x1_0000_0000_0000_0000
  const TWO_128: nat := 0x1_0000_0000_0000_0000_0000_0000_0000_0000

  lemma Powers()
    ensures Pow256(4) == 0x1_0000_0000 && Pow256(8) == TWO_64 && Pow256(16) == TWO_128
  {
    assert Pow256(4) == 256 * (256 * (256 * (256 * 1)));
    assert Pow256(8) == 256 * (256 * (256 * (256 * Pow256(4))));
    assert Pow256(12) == 256 * (256 * (256 * (256 * Pow256(8))));
    assert Pow256(16) == 256 * (256 * (256 * (256 * Pow256(12))));
  }

  /** The representative of `v` between 0 and 2^128. */
  function Residue(v: int): nat {
    v % TWO_128
  }

  /** Writes the eight bytes of an unsigned 64-bit number at `offset`. */
  method WriteBigUInt64BE(buf: array<byte>, v: nat, offset: nat)
    requires offset + 8 <= buf.Length && v < TWO_64
    modifies buf
    ensures buf[..] == old(buf[..offset]) + BigEndian(v, 8) + old(buf[offset + 8..])
  {
    ghost var was := buf[..];
    var rest, i := v, 8;
    while i > 0
      invariant 0 <= i <= 8
      invariant BigEndian(v, 8) == BigEndian(rest, i) + buf[offset + i..offset + 8]
      invariant buf[..offset] == was[..offset] && buf[offset + 8..] == was[offset + 8..]
    {
      i := i - 1;
      buf[offset + i] := rest % 256;
      rest := rest / 256;
      assert buf[offset + i..offset + 8] == [buf[offset + i]] + buf[offset + i + 1..offset + 8];
    }
    assert buf[..] == buf[..offset] + buf[offset..offset + 8] + buf[offset + 8..];
  }

  /** Flips every bit of the buffer. */
  method InvertAll(buf: array<byte>)
    modifies buf
    ensures Value(buf[..]) + Value(old(buf[..])) == Pow256(buf.Length) - 1
  {
    ghost var was := buf[..];
    for i := 0 to buf.Length
      invariant buf[i..] == was[i..]
      invariant Value(buf[..i]) + Value(was[..i]) == Pow256(i) - 1
    {
      buf[i] := 255 - buf[i];
      assert buf[..i + 1][..i] == buf[..i] && was[..i + 1][..i] == was[..i];
    }
    assert buf[..buf.Length] == buf[..] && was[..buf.Length] == was;
  }

  /** Adding one has turned the bytes `was` into `bytes`, with `carry` left over. */
  ghost predicate Added(bytes: seq<byte>, was: seq<byte>, carry: nat) {
    |bytes| == |was| && carry <= 1 && Value(bytes) + Times(carry, Pow256(|was|)) == Value(was) + 1
  }

  /** Adds one, rippling the carry from the last byte to the first. */
  method AddOne(buf: array<byte>)
    requires Value(buf[..]) + 1 < Pow256(buf.Length)
    modifies buf
    ensures Value(buf[..]) == Value(old(buf[..])) + 1
  {
    ghost var was := buf[..];
    var carry: nat := 1;
    var i := buf.Length;
    while i > 0
      invariant 0 <= i <= buf.Length && carry <= 1
      invariant buf[..i] == was[..i]
      invariant Added(buf[i..], was[i..], carry)
    {
      i := i - 1;
      var sum: int := buf[i] + carry;
      ghost var tail := buf[i + 1..];
      AddStep(tail, was[i + 1..], was[i], carry, sum);
      buf[i] := sum % 256;
      assert buf[i..] == [buf[i]] + tail && was[i..] == [was[i]] + was[i + 1..];
      carry := sum / 256;
    }
    assert buf[0..] == buf[..] && was[0..] == was;
    NoCarryLeft(buf[..], was, carry);
  }

  lemma NoCarryLeft(bytes: seq<byte>, was: seq<byte>, carry: nat)
    requires Added(bytes, was, carry) && Value(was) + 1 < Pow256(|was|)
    ensures Value(bytes) == Value(was) + 1
  {
  }

  function Times(carry: nat, power: nat): nat {
    if carry == 0 then 0 else power
  }

  lemma CarryStep(b: byte, carry: nat, power: nat)
    requires carry <= 1
    ensures (b + carry) % 256 * power + Times((b + carry) / 256, 256 * power) == b * power + Times(carry, power)
  {
    if b + carry == 256 {
      assert b * power + power == 256 * power;
    } else {
      assert (b + carry) % 256 == b + carry;
      assert (b + carry) * power == b * power + carry * power;
    }
  }

  /** One byte of the addition: the carry into it becomes the carry out of it. */
  lemma AddStep(tail: seq<byte>, tailWas: seq<byte>, b: byte, carry: nat, sum: int)
    requires Added(tail, tailWas, carry) && sum == b + carry
    ensures Added([sum % 256] + tail, [b] + tailWas, sum / 256)
  {
    var d: byte := sum % 256;
    assert ([d] + tail)[1..] == tail && ([b] + tailWas)[1..] == tailWas;
    ValueHead([d] + tail);
    ValueHead([b] + tailWas);
    CarryStep(b, carry, Pow256(|tail|));
  }

  lemma TwoHalves(v: nat)
    ensures v / TWO_64 < TWO_64 <==> v < TWO_128
    ensures v < TWO_128 ==> Value(BigEndian(v / TWO_64, 8) + BigEndian(v % TWO_64, 8)) == v
  {
    Powers();
    if v < TWO_128 {
      ValueConcat(BigEndian(v / TWO_64, 8), BigEndian(v % TWO_64, 8));
      ValueBigEndian(v / TWO_64, 8);
      ValueBigEndian(v % TWO_64, 8);
    }
  }

  /** Inverts the bits and adds one. */
  method TwosComplement(buf: array<byte>)
    requires Value(buf[..]) > 0
    modifies buf
    ensures Value(buf[..]) == Pow256(buf.Length) - Value(old(buf[..]))
  {
    InvertAll(buf);
    AddOne(buf);
  }

  lemma ResidueOf(value: int)
    requires Abs(value) < TWO_128
    ensures Residue(value) == if value < 0 then TWO_128 + value else value
  {
  }

  /** A buffer holds the two's complement of `value` when its value is the residue of `value`. */
  lemma TwosComplementBytes(bs: seq<byte>, value: int)
    requires |bs| == 16 && Abs(value) < TWO_128
    requires Value(bs) == if value < 0 then TWO_128 + value else value
    ensures bs == BigEndian(Residue(value), 16)
  {
    ResidueOf(value);
    BigEndianValue(bs);
  }

  /**
   The reference generator's writer. It fails for numbers of more than 128 bits; otherwise it
   writes the number modulo 2^128, most significant byte first.
   */
  method I128ToBigEndian(value: int) returns (r: Result<seq<byte>>)
    ensures Abs(value) < TWO_128 ==> r == Ok(BigEndian(Residue(value), 16))
    ensures Abs(value) >= TWO_128 ==> r == Err(HostTrap)
  {
    var isNegative := value < 0;
    var absValue := if isNegative then -value else value;
    var high, low := absValue / TWO_64, absValue % TWO_64;
    TwoHalves(absValue);
    if high >= TWO_64 {
      return Err(HostTrap);
    }
    var buf := new byte[16](_ => 0);
    WriteBigUInt64BE(buf, high, 0);
    WriteBigUInt64BE(buf, low, 8);
    assert buf[..] == BigEndian(high, 8) + BigEndian(low, 8);
    if isNegative {
      Powers();
      TwosComplement(buf);
    }
    TwosComplementBytes(buf[..], value);
    r := Ok(buf[..]);
  }

  /** For every i128 the sixteen bytes determine the number. */
  lemma ResidueInjective(v: int, w: int)
    requires InI128(v) && InI128(w) && BigEndian(Residue(v), 16) == BigEndian(Residue(w), 16)
    ensures v == w
  {
    Powers();
    BigEndianInjective(Residue(v), Residue(w), 16);
  }
}
