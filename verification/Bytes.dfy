/** Bytes, byte strings and the "image" view of a transformed stream.
  *
  * A transformer that inserts bytes is described by the list of images of its
  * source bytes: image k is what the k-th source byte becomes. The list has one
  * entry per source byte, so it can be cut wherever the source can be cut.
  */
module Bytes {
  type byte = b: int | 0 <= b < 256
  type Images = seq<seq<byte>>

  function Zeros(n: nat): (r: seq<byte>)
    ensures |r| == n
    ensures forall i :: 0 <= i < n ==> r[i] == 0
  {
    seq(n, _ => 0)
  }

  /** The image list of bytes that are copied unchanged. */
  function Singles(data: seq<byte>): (r: Images)
    ensures |r| == |data|
    ensures forall i :: 0 <= i < |data| ==> r[i] == [data[i]]
  {
    seq(|data|, i requires 0 <= i < |data| => [data[i]])
  }

  function Flatten(images: Images): seq<byte> {
    if images == [] then [] else images[0] + Flatten(images[1..])
  }

  lemma ConcatAssociates<T>(a: seq<T>, b: seq<T>, c: seq<T>)
    ensures (a + b) + c == a + (b + c)
  {
  }

  lemma {:induction false} FlattenConcat(a: Images, b: Images)
    ensures Flatten(a + b) == Flatten(a) + Flatten(b)
  {
    if a == [] {
      assert a + b == b;
    } else {
      assert (a + b)[0] == a[0] && (a + b)[1..] == a[1..] + b;
      FlattenConcat(a[1..], b);
      ConcatAssociates(a[0], Flatten(a[1..]), Flatten(b));
    }
  }

  lemma {:induction false} FlattenSingles(data: seq<byte>)
    ensures Flatten(Singles(data)) == data
  {
    if data != [] {
      FlattenSingles(data[1..]);
      assert Singles(data)[1..] == Singles(data[1..]);
      assert data == [data[0]] + data[1..];
    }
  }

  lemma SinglesConcat(a: seq<byte>, b: seq<byte>)
    ensures Singles(a + b) == Singles(a) + Singles(b)
  {
  }

  lemma ZerosConcat(m: nat, n: nat)
    ensures Zeros(m) + Zeros(n) == Zeros(m + n)
  {
  }

  /** Bitwise exclusive or of the low `bits` bits. */
  function XorBits(bits: nat, a: nat, b: nat): nat
    decreases bits
  {
    if bits == 0 then 0 else (if a % 2 == b % 2 then 0 else 1) + 2 * XorBits(bits - 1, a / 2, b / 2)
  }

  function Pow2(n: nat): (r: nat)
    ensures r >= 1
  {
    if n == 0 then 1 else 2 * Pow2(n - 1)
  }

  lemma {:induction false} XorBitsBound(bits: nat, a: nat, b: nat)
    ensures XorBits(bits, a, b) < Pow2(bits)
    decreases bits
  {
    if bits > 0 {
      XorBitsBound(bits - 1, a / 2, b / 2);
    }
  }

  lemma {:induction false} XorBitsInvolution(bits: nat, a: nat, b: nat)
    requires b < Pow2(bits)
    ensures XorBits(bits, a, XorBits(bits, a, b)) == b
    decreases bits
  {
    if bits > 0 {
      var inner := XorBits(bits - 1, a / 2, b / 2);
      var low := if a % 2 == b % 2 then 0 else 1;
      assert XorBits(bits, a, b) == low + 2 * inner;
      assert (low + 2 * inner) / 2 == inner && (low + 2 * inner) % 2 == low;
      XorBitsInvolution(bits - 1, a / 2, b / 2);
    }
  }

  /** Bit number j, the lowest being number 0. */
  function BitAt(n: nat, j: nat): nat {
    if j == 0 then n % 2 else BitAt(n / 2, j - 1)
  }

  /** Exclusive or adds bit by bit, without carry. */
  lemma {:induction false} XorBitsBitwise(bits: nat, a: nat, b: nat, j: nat)
    requires j < bits
    ensures BitAt(XorBits(bits, a, b), j) == (BitAt(a, j) + BitAt(b, j)) % 2
    decreases bits
  {
    var inner := XorBits(bits - 1, a / 2, b / 2);
    var low := if a % 2 == b % 2 then 0 else 1;
    assert (low + 2 * inner) / 2 == inner && (low + 2 * inner) % 2 == low;
    if j > 0 {
      XorBitsBitwise(bits - 1, a / 2, b / 2, j - 1);
    }
  }

  function Xor(a: byte, b: byte): byte {
    assert Pow2(8) == 256 by { assert Pow2(4) == 16; }
    XorBitsBound(8, a, b);
    XorBits(8, a, b)
  }

  /** Xor with the same byte twice gives the byte back. */
  lemma XorInvolution(a: byte, b: byte)
    ensures Xor(a, Xor(a, b)) == b
  {
    assert Pow2(8) == 256 by { assert Pow2(4) == 16; }
    XorBitsInvolution(8, a, b);
  }
}
