/** internal/go-astits/crc32.go and the generator of its table: the CRC of PSI sections
  * (Annex A of ISO/IEC 13818-1), by table and bit by bit.
  *
  * A uint32 is its 32 bits, most significant first; a shift drops bits, exclusive or
  * works bit by bit.
  */
module Crc {
  import opened Bytes
  import opened AdaptationField

  type Word = seq<bool>

  const WIDTH := 32
  const POLYNOMIAL: Word := Bits(0x04C1_1DB7, WIDTH)

  function Clear(n: nat): (r: Word)
    ensures |r| == n
  {
    seq(n, _ => false)
  }

  function Set(n: nat): (r: Word)
    ensures |r| == n
  {
    seq(n, _ => true)
  }

  function Xor(a: Word, b: Word): (r: Word)
    requires |a| == |b|
    ensures |r| == |a|
  {
    seq(|a|, i requires 0 <= i < |a| => a[i] != b[i])
  }

  // ---- the definition: the shift register of Annex A ----

  function Feedback(f: bool): (r: Word)
    ensures |r| == WIDTH
  {
    if f then POLYNOMIAL else Clear(WIDTH)
  }

  /** One message bit: added to the bit that leaves the register it decides the feedback. */
  function Shift(crc: Word, bit: bool): (r: Word)
    requires |crc| == WIDTH
    ensures |r| == WIDTH
  {
    Xor(crc[1..] + [false], Feedback(crc[0] != bit))
  }

  function ShiftAll(crc: Word, bits: Word): (r: Word)
    requires |crc| == WIDTH
    ensures |r| == WIDTH
    decreases |bits|
  {
    if bits == [] then crc else ShiftAll(Shift(crc, bits[0]), bits[1..])
  }

  function MessageBits(bs: seq<byte>): (r: Word)
    ensures |r| == 8 * |bs|
  {
    if bs == [] then [] else Bits(bs[0], 8) + MessageBits(bs[1..])
  }

  /** computeCRC32, bit by bit. */
  function Checksum(bs: seq<byte>): (r: Word)
    ensures |r| == WIDTH
  {
    ShiftAll(Set(WIDTH), MessageBits(bs))
  }

  // ---- the register is linear ----

  lemma ShiftLinear(a: Word, c: Word, x: bool, y: bool)
    requires |a| == WIDTH && |c| == WIDTH
    ensures Shift(Xor(a, c), x != y) == Xor(Shift(a, x), Shift(c, y))
  {
  }

  lemma {:induction false} ShiftAllLinear(a: Word, c: Word, x: Word, y: Word)
    requires |a| == WIDTH && |c| == WIDTH && |x| == |y|
    ensures ShiftAll(Xor(a, c), Xor(x, y)) == Xor(ShiftAll(a, x), ShiftAll(c, y))
    decreases |x|
  {
    if x != [] {
      ShiftLinear(a, c, x[0], y[0]);
      assert Xor(x, y)[1..] == Xor(x[1..], y[1..]);
      ShiftAllLinear(Shift(a, x[0]), Shift(c, y[0]), x[1..], y[1..]);
    }
  }

  lemma {:induction false} ShiftAllConcat(crc: Word, a: Word, b: Word)
    requires |crc| == WIDTH
    ensures ShiftAll(crc, a + b) == ShiftAll(ShiftAll(crc, a), b)
    decreases |a|
  {
    if a == [] {
      assert a + b == b;
    } else {
      assert (a + b)[0] == a[0] && (a + b)[1..] == a[1..] + b;
      ShiftAllConcat(Shift(crc, a[0]), a[1..], b);
    }
  }

  /** Zeros move a register with as many leading zeros without feedback. */
  lemma {:induction false} ShiftZeros(low: Word, n: nat, pad: nat)
    requires n + |low| + pad == WIDTH
    ensures ShiftAll(Clear(n) + (low + Clear(pad)), Clear(n)) == low + Clear(pad + n)
    decreases n
  {
    if n == 0 {
      assert Clear(0) + (low + Clear(pad)) == low + Clear(pad);
    } else {
      var crc := Clear(n) + (low + Clear(pad));
      assert Shift(crc, false) == Clear(n - 1) + (low + Clear(pad + 1));
      assert Clear(n)[1..] == Clear(n - 1);
      ShiftZeros(low, n - 1, pad + 1);
    }
  }

  /** A register that starts with the message is emptied by it. */
  lemma {:induction false} ShiftItself(high: Word, pad: nat)
    requires |high| + pad == WIDTH
    ensures ShiftAll(high + Clear(pad), high) == Clear(WIDTH)
    decreases |high|
  {
    if high == [] {
      assert high + Clear(pad) == Clear(WIDTH);
    } else {
      assert Shift(high + Clear(pad), high[0]) == high[1..] + Clear(pad + 1);
      ShiftItself(high[1..], pad + 1);
    }
  }

  lemma XorClear(a: Word)
    ensures Xor(a, Clear(|a|)) == a && Xor(Clear(|a|), a) == a && Xor(a, a) == Clear(|a|)
  {
  }

  /** A message can be added to the front of the register beforehand. */
  lemma AddBefore(crc: Word, bits: Word)
    requires |crc| == WIDTH && |bits| <= WIDTH
    ensures ShiftAll(crc, bits) == ShiftAll(Xor(crc, bits + Clear(WIDTH - |bits|)), Clear(|bits|))
  {
    var front := bits + Clear(WIDTH - |bits|);
    ShiftAllLinear(crc, front, bits, bits);
    XorClear(bits);
    ShiftItself(bits, WIDTH - |bits|);
    XorClear(ShiftAll(crc, bits));
  }

  // ---- the table ----

  function Entry(i: Word): (r: Word)
    requires |i| == 8
    ensures |r| == WIDTH
  {
    ShiftAll(Clear(WIDTH), i)
  }

  /** updateCRC32 for one byte: the table is indexed by the top byte of the register plus the byte. */
  function UpdateByte(crc: Word, b: Word): (r: Word)
    requires |crc| == WIDTH && |b| == 8
    ensures |r| == WIDTH
  {
    Xor(crc[8..] + Clear(8), Entry(Xor(crc[..8], b)))
  }

  lemma SplitRegister(high: Word, low: Word)
    requires |high| == 8 && |low| == 24
    ensures Xor(high + Clear(24), Clear(8) + (low + Clear(0))) == high + low
  {
  }

  lemma AddFront(high: Word, b: Word)
    requires |high| == 8 && |b| == 8
    ensures Xor(high + Clear(24), b + Clear(24)) == Xor(Clear(WIDTH), Xor(high, b) + Clear(24))
  {
  }

  lemma XorCommutes(a: Word, b: Word)
    requires |a| == |b|
    ensures Xor(a, b) == Xor(b, a)
  {
  }

  /** The top byte of the register takes part like the message byte. */
  lemma TopByte(high: Word, b: Word)
    requires |high| == 8 && |b| == 8
    ensures ShiftAll(high + Clear(24), b) == Entry(Xor(high, b))
  {
    AddBefore(high + Clear(24), b);
    AddBefore(Clear(WIDTH), Xor(high, b));
    AddFront(high, b);
  }

  /** A table step is eight shifts. */
  lemma UpdateIsShift(crc: Word, b: Word)
    requires |crc| == WIDTH && |b| == 8
    ensures UpdateByte(crc, b) == ShiftAll(crc, b)
  {
    var high, low := crc[..8], crc[8..];
    var top, rest := high + Clear(24), Clear(8) + (low + Clear(0));
    SplitRegister(high, low);
    XorClear(b);
    ShiftAllLinear(top, rest, b, Clear(8));
    ShiftZeros(low, 8, 0);
    TopByte(high, b);
    XorCommutes(Entry(Xor(high, b)), low + Clear(8));
    assert crc == high + low;
  }

  /** The inner loop of the generator: a marker bit behind the eight bits says when to stop. */
  method GenerateEntry(i: byte) returns (k: Word)
    ensures k == Entry(Bits(i, 8))
  {
    var bits := Bits(i, 8);
    k := Clear(WIDTH);
    var j := bits + [true] + Clear(23);
    ghost var n := 0;
    while j != [true] + Clear(31)
      invariant n <= 8 && j == bits[n..] + [true] + Clear(23 + n) && |k| == WIDTH
      invariant ShiftAll(Clear(WIDTH), bits) == ShiftAll(k, bits[n..])
      decreases 8 - n
    {
      if n == 8 {
        assert false;
      }
      var shifted := k[1..] + [false];
      assert Shift(k, bits[n]) == if k[0] != bits[n] then Xor(shifted, POLYNOMIAL) else shifted by {
        XorClear(shifted);
      }
      k := if k[0] != j[0] then Xor(shifted, POLYNOMIAL) else shifted;
      assert j[1..] + [false] == bits[n + 1..] + [true] + Clear(23 + (n + 1));
      assert bits[n..][1..] == bits[n + 1..];
      j := j[1..] + [false];
      n := n + 1;
    }
    Marker(bits, n);
    assert n == 8 ==> bits[n..] == [];
  }

  lemma Marker(bits: Word, n: nat)
    requires |bits| == 8 && n <= 8
    ensures (bits[n..] + [true] + Clear(23 + n))[8 - n]
  {
  }

  method GenerateTable() returns (table: seq<Word>)
    ensures |table| == 256 && forall i: byte :: table[i] == Entry(Bits(i, 8))
  {
    table := [];
    for i := 0 to 256
      invariant |table| == i && forall b: byte :: b as int < i ==> table[b] == Entry(Bits(b, 8))
    {
      var k := GenerateEntry(i);
      table := table + [k];
    }
  }

  // ---- messages ----

  /** updateCRC32 with the generated table is bit-by-bit division, whatever the register holds. */
  method UpdateCRC32(table: seq<Word>, crc: Word, bs: seq<byte>) returns (r: Word)
    requires |table| == 256 && forall i: byte :: table[i] == Entry(Bits(i, 8))
    requires |crc| == WIDTH
    ensures r == ShiftAll(crc, MessageBits(bs))
  {
    r := crc;
    for i := 0 to |bs|
      invariant |r| == WIDTH && ShiftAll(r, MessageBits(bs[i..])) == ShiftAll(crc, MessageBits(bs))
    {
      var b := Bits(bs[i], 8);
      var index := Xor(r[..8], b);
      assert bs[i..][0] == bs[i] && bs[i..][1..] == bs[i + 1..];
      ShiftAllConcat(r, b, MessageBits(bs[i + 1..]));
      UpdateIsShift(r, b);
      BitsInverse(index);
      r := Xor(r[8..] + Clear(8), table[FlagByte(index)]);
    }
  }

  method ComputeCRC32(table: seq<Word>, bs: seq<byte>) returns (r: Word)
    requires |table| == 256 && forall i: byte :: table[i] == Entry(Bits(i, 8))
    ensures r == Checksum(bs)
  {
    r := UpdateCRC32(table, Set(WIDTH), bs);
  }

  lemma {:induction false} MessageConcat(a: seq<byte>, b: seq<byte>)
    ensures MessageBits(a + b) == MessageBits(a) + MessageBits(b)
  {
    if a == [] {
      assert a + b == b;
    } else {
      assert (a + b)[0] == a[0] && (a + b)[1..] == a[1..] + b;
      MessageConcat(a[1..], b);
      ConcatAssociates(Bits(a[0], 8), MessageBits(a[1..]), MessageBits(b));
    }
  }

  /** A message may be fed in pieces. */
  lemma UpdateComposes(crc: Word, a: seq<byte>, b: seq<byte>)
    requires |crc| == WIDTH
    ensures ShiftAll(crc, MessageBits(a + b)) == ShiftAll(ShiftAll(crc, MessageBits(a)), MessageBits(b))
  {
    MessageConcat(a, b);
    ShiftAllConcat(crc, MessageBits(a), MessageBits(b));
  }

  /** The checksum as four bytes, most significant first. */
  function ChecksumBytes(bs: seq<byte>): (r: seq<byte>)
    ensures |r| == 4
  {
    var c := Checksum(bs);
    [FlagByte(c[..8]), FlagByte(c[8..16]), FlagByte(c[16..24]), FlagByte(c[24..])]
  }

  lemma ByteBits(bits: Word)
    requires |bits| == 8
    ensures Bits(FlagByte(bits), 8) == bits
  {
    BitsInverse(bits);
  }

  lemma FourBytes(a: byte, b: byte, c: byte, d: byte)
    ensures MessageBits([a, b, c, d]) == Bits(a, 8) + Bits(b, 8) + Bits(c, 8) + Bits(d, 8)
  {
    MessageConcat([a, b], [c, d]);
    MessageConcat([a], [b]);
    MessageConcat([c], [d]);
    assert [a, b] + [c, d] == [a, b, c, d] && [a] + [b] == [a, b] && [c] + [d] == [c, d];
    OneByte(a);
    OneByte(b);
    OneByte(c);
    OneByte(d);
  }

  lemma OneByte(a: byte)
    ensures MessageBits([a]) == Bits(a, 8)
  {
    assert [a][1..] == [];
    assert Bits(a, 8) + [] == Bits(a, 8);
  }

  lemma FourParts(c: Word)
    requires |c| == WIDTH
    ensures c[..8] + c[8..16] + c[16..24] + c[24..] == c
  {
  }

  lemma ChecksumBits(bs: seq<byte>)
    ensures MessageBits(ChecksumBytes(bs)) == Checksum(bs)
  {
    var c, r := Checksum(bs), ChecksumBytes(bs);
    ByteBits(c[..8]);
    ByteBits(c[8..16]);
    ByteBits(c[16..24]);
    ByteBits(c[24..]);
    FourBytes(r[0], r[1], r[2], r[3]);
    FourParts(c);
  }

  /** A message followed by its checksum leaves the register empty. */
  lemma Residue(bs: seq<byte>)
    ensures Checksum(bs + ChecksumBytes(bs)) == Clear(WIDTH)
  {
    var c := Checksum(bs);
    UpdateComposes(Set(WIDTH), bs, ChecksumBytes(bs));
    ChecksumBits(bs);
    ShiftItself(c, 0);
    assert c + Clear(0) == c;
  }

  // ---- errors that are always found ----

  lemma PolynomialIsOdd()
    ensures POLYNOMIAL[31]
  {
    assert Bits(0x04C1_1DB7, 32) == Bits(0x04C1_1DB7 / 2, 31) + [true];
  }

  lemma ShiftLast(a: Word, bit: bool)
    requires |a| == WIDTH
    ensures Shift(a, bit)[31] == (a[0] != bit)
  {
    PolynomialIsOdd();
  }

  lemma ShiftAt(a: Word, bit: bool, i: nat)
    requires |a| == WIDTH && i < 31
    ensures Shift(a, bit)[i] == (a[i + 1] != Feedback(a[0] != bit)[i])
  {
  }

  /** A shift can be undone: the last bit shows whether there was feedback. */
  lemma ShiftInjective(a: Word, c: Word, bit: bool)
    requires |a| == WIDTH && |c| == WIDTH && Shift(a, bit) == Shift(c, bit)
    ensures a == c
  {
    ShiftLast(a, bit);
    ShiftLast(c, bit);
    forall i | 0 < i < WIDTH ensures a[i] == c[i] {
      ShiftAt(a, bit, i - 1);
      ShiftAt(c, bit, i - 1);
    }
  }

  lemma {:induction false} ShiftAllInjective(a: Word, c: Word, bits: Word)
    requires |a| == WIDTH && |c| == WIDTH && ShiftAll(a, bits) == ShiftAll(c, bits)
    ensures a == c
    decreases |bits|
  {
    if bits != [] {
      ShiftAllInjective(Shift(a, bits[0]), Shift(c, bits[0]), bits[1..]);
      ShiftInjective(a, c, bits[0]);
    }
  }

  /** Different bits, at most as many as the register has, lead to different registers. */
  lemma BurstShows(crc: Word, x: Word, y: Word)
    requires |crc| == WIDTH && |x| == |y| <= WIDTH && ShiftAll(crc, x) == ShiftAll(crc, y)
    ensures x == y
  {
    AddBefore(crc, x);
    AddBefore(crc, y);
    var pad := Clear(WIDTH - |x|);
    ShiftAllInjective(Xor(crc, x + pad), Xor(crc, y + pad), Clear(|x|));
    forall i | 0 <= i < |x| ensures x[i] == y[i] {
      assert Xor(crc, x + pad)[i] == (crc[i] != x[i]) && Xor(crc, y + pad)[i] == (crc[i] != y[i]);
    }
  }

  /** The bytes back from their bits. */
  lemma {:induction false} MessageBitsInjective(x: seq<byte>, y: seq<byte>)
    requires |x| == |y| && MessageBits(x) == MessageBits(y)
    ensures x == y
  {
    if x != [] {
      var p, q := MessageBits(x), MessageBits(y);
      assert p[..8] == Bits(x[0], 8) && q[..8] == Bits(y[0], 8);
      assert p[8..] == MessageBits(x[1..]) && q[8..] == MessageBits(y[1..]);
      FromBitsOfByte(x[0]);
      FromBitsOfByte(y[0]);
      MessageBitsInjective(x[1..], y[1..]);
      assert x == [x[0]] + x[1..] && y == [y[0]] + y[1..];
    }
  }

  lemma {:induction false} FromBitsOf(n: nat, width: nat)
    requires n < Pow2(width)
    ensures FromBits(Bits(n, width)) == n
    decreases width
  {
    if width > 0 {
      FromBitsOf(n / 2, width - 1);
      var b := Bits(n, width);
      assert b[..|b| - 1] == Bits(n / 2, width - 1);
    }
  }

  lemma FromBitsOfByte(b: byte)
    ensures FromBits(Bits(b, 8)) == b
  {
    assert Pow2(8) == 256 by { assert Pow2(4) == 16; }
    FromBitsOf(b, 8);
  }

  /** A change within four neighbouring bytes, and so of a single byte, always changes the checksum. */
  lemma ChangeShows(front: seq<byte>, x: seq<byte>, y: seq<byte>, back: seq<byte>)
    requires |x| == |y| <= 4 && x != y
    ensures Checksum(front + x + back) != Checksum(front + y + back)
  {
    if Checksum(front + x + back) == Checksum(front + y + back) {
      var init := Set(WIDTH);
      UpdateComposes(init, front + x, back);
      UpdateComposes(init, front + y, back);
      UpdateComposes(init, front, x);
      UpdateComposes(init, front, y);
      var c := ShiftAll(init, MessageBits(front));
      ShiftAllInjective(ShiftAll(c, MessageBits(x)), ShiftAll(c, MessageBits(y)), MessageBits(back));
      BurstShows(c, MessageBits(x), MessageBits(y));
      MessageBitsInjective(x, y);
    }
  }

  // ---- the register starts with ones ----

  function Inverted(bs: seq<byte>): (r: seq<byte>)
    ensures |r| == |bs|
  {
    seq(|bs|, i requires 0 <= i < |bs| => 255 - bs[i])
  }

  lemma {:induction false} InvertedByte(n: nat, width: nat)
    requires n < Pow2(width)
    ensures Bits(Pow2(width) - 1 - n, width) == Xor(Set(width), Bits(n, width))
    decreases width
  {
    if width > 0 {
      var m := Pow2(width) - 1 - n;
      assert m / 2 == Pow2(width - 1) - 1 - n / 2 && (m % 2 == 1 <==> n % 2 == 0);
      InvertedByte(n / 2, width - 1);
    }
  }

  lemma {:induction false} InvertedMessage(bs: seq<byte>)
    ensures MessageBits(Inverted(bs)) == Xor(Set(8 * |bs|), MessageBits(bs))
    decreases |bs|
  {
    if bs != [] {
      assert Pow2(8) == 256 by { assert Pow2(4) == 16; }
      InvertedByte(bs[0], 8);
      assert Inverted(bs)[1..] == Inverted(bs[1..]);
      InvertedMessage(bs[1..]);
    }
  }

  /** The checksum is what an empty register makes of the message with its first four bytes
    * inverted. */
  lemma StartsWithOnes(first: seq<byte>, more: seq<byte>)
    requires |first| == 4
    ensures Checksum(first + more) == ShiftAll(Clear(32), MessageBits(Inverted(first) + more))
  {
    var m, w := MessageBits(first), MessageBits(Inverted(first));
    InvertedMessage(first);
    UpdateComposes(Set(32), first, more);
    UpdateComposes(Clear(32), Inverted(first), more);
    AddBefore(Set(32), m);
    AddBefore(Clear(32), w);
    assert m + Clear(0) == m && w + Clear(0) == w;
    assert Xor(Clear(32), w) == Xor(Set(32), m);
  }
}
