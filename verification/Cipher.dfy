/** The block cryptor (sampleaes/encryptor.go) over an arbitrary block function. */
module Cipher {
  import opened Bytes
  import opened Wrappers

  type Block = b: seq<byte> | |b| == 16 witness Zeros(16)

  /** `enc` stands for AES under the configured key, `dec` for its inverse. */
  datatype Keys = Keys(enc: Block -> Block, dec: Block -> Block, iv: Block)

  ghost predicate Invertible(keys: Keys) {
    forall b: Block :: keys.dec(keys.enc(b)) == b
  }

  function XorBlock(a: Block, b: Block): Block {
    seq(16, i requires 0 <= i < 16 => Xor(a[i], b[i]))
  }

  lemma XorBlockInvolution(a: Block, b: Block)
    ensures XorBlock(a, XorBlock(a, b)) == b
  {
    forall i | 0 <= i < 16
      ensures XorBlock(a, XorBlock(a, b))[i] == b[i]
    {
      XorInvolution(a[i], b[i]);
    }
  }

  /** Exclusive or, byte by byte and bit by bit. */
  lemma XorBlockBitwise(a: Block, b: Block, i: nat, j: nat)
    requires i < 16 && j < 8
    ensures BitAt(XorBlock(a, b)[i], j) == (BitAt(a[i], j) + BitAt(b[i], j)) % 2
  {
    XorBitsBitwise(8, a[i], b[i], j);
  }

  /** One CBC step: the ciphertext, which is also the next chaining value. */
  function Seal(keys: Keys, chain: Block, plain: Block): Block {
    keys.enc(XorBlock(chain, plain))
  }

  function Unseal(keys: Keys, chain: Block, cipher: Block): Block {
    XorBlock(chain, keys.dec(cipher))
  }

  lemma UnsealSeal(keys: Keys, chain: Block, plain: Block)
    requires Invertible(keys)
    ensures Unseal(keys, chain, Seal(keys, chain, plain)) == plain
  {
    XorBlockInvolution(chain, plain);
  }

  /** CBC over whole blocks. */
  function Cbc(keys: Keys, chain: Block, data: seq<byte>): (r: seq<byte>)
    requires |data| % 16 == 0
    ensures |r| == |data|
    decreases |data|
  {
    if data == [] then []
    else
      var c := Seal(keys, chain, data[..16]);
      c + Cbc(keys, c, data[16..])
  }

  /** The chaining value after `data`: its last ciphertext block. */
  function CbcChain(keys: Keys, chain: Block, data: seq<byte>): Block
    requires |data| % 16 == 0
    decreases |data|
  {
    if data == [] then chain else CbcChain(keys, Seal(keys, chain, data[..16]), data[16..])
  }

  function CbcDecrypt(keys: Keys, chain: Block, data: seq<byte>): (r: seq<byte>)
    requires |data| % 16 == 0
    ensures |r| == |data|
    decreases |data|
  {
    if data == [] then []
    else Unseal(keys, chain, data[..16]) + CbcDecrypt(keys, data[..16], data[16..])
  }

  lemma {:induction false} CbcRoundTrip(keys: Keys, chain: Block, data: seq<byte>)
    requires |data| % 16 == 0 && Invertible(keys)
    ensures CbcDecrypt(keys, chain, Cbc(keys, chain, data)) == data
    decreases |data|
  {
    if data != [] {
      var c := Seal(keys, chain, data[..16]);
      UnsealSeal(keys, chain, data[..16]);
      CbcRoundTrip(keys, c, data[16..]);
      var r := Cbc(keys, chain, data);
      assert r[..16] == c && r[16..] == Cbc(keys, c, data[16..]);
      assert data == data[..16] + data[16..];
    }
  }

  lemma {:induction false} CbcConcat(keys: Keys, chain: Block, a: seq<byte>, b: seq<byte>)
    requires |a| % 16 == 0 && |b| % 16 == 0
    ensures Cbc(keys, chain, a + b) == Cbc(keys, chain, a) + Cbc(keys, CbcChain(keys, chain, a), b)
    ensures CbcChain(keys, chain, a + b) == CbcChain(keys, CbcChain(keys, chain, a), b)
    decreases |a|
  {
    if a == [] {
      assert a + b == b;
    } else {
      assert (a + b)[..16] == a[..16] && (a + b)[16..] == a[16..] + b;
      CbcConcat(keys, Seal(keys, chain, a[..16]), a[16..], b);
    }
  }

  /** Block k is the cipher of its plaintext and the ciphertext block before it. */
  lemma {:induction false} CbcBlocks(keys: Keys, chain: Block, data: seq<byte>, k: nat)
    requires |data| % 16 == 0 && 16 * k + 16 <= |data|
    ensures var c := Cbc(keys, chain, data);
      c[16 * k..16 * k + 16] ==
        keys.enc(XorBlock(if k == 0 then chain else c[16 * k - 16..16 * k], data[16 * k..16 * k + 16]))
    decreases k
  {
    var c, first := Cbc(keys, chain, data), Seal(keys, chain, data[..16]);
    var behind, rest := Cbc(keys, first, data[16..]), data[16..];
    assert c == first + behind;
    if k > 0 {
      var lo := 16 * (k - 1);
      CbcBlocks(keys, first, rest, k - 1);
      BehindFirst(first, behind, lo);
      BehindFirst(data[..16], rest, lo);
      assert data == data[..16] + rest;
      if k > 1 {
        BehindFirst(first, behind, lo - 16);
      }
    }
  }

  lemma BehindFirst(first: seq<byte>, behind: seq<byte>, lo: nat)
    requires |first| == 16 && lo + 16 <= |behind|
    ensures (first + behind)[lo + 16..lo + 32] == behind[lo..lo + 16]
  {
  }

  lemma CbcOne(keys: Keys, chain: Block, plain: Block)
    ensures Cbc(keys, chain, plain) == Seal(keys, chain, plain)
    ensures CbcChain(keys, chain, plain) == Seal(keys, chain, plain)
  {
    assert plain[..16] == plain && plain[16..] == [];
    assert Cbc(keys, Seal(keys, chain, plain), []) == [];
  }

  /** CBCEncryptor. `mode` is the running CBC state: absent until the first Reset. */
  class CBCEncryptor {
    const keys: Keys
    var mode: Option<Block>

    constructor (keys: Keys)
      ensures this.keys == keys && mode == None
    {
      this.keys := keys;
      mode := None;
    }

    method Reset()
      modifies this
      ensures mode == Some(keys.iv)
    {
      mode := Some(keys.iv);
    }

    /** Encrypts data[lo..hi] in place and carries the chain on. The precondition
      * on `mode` is what the nil CBC mode of a fresh cryptor amounts to. */
    method CryptBlocks(data: array<byte>, lo: nat, hi: nat) returns (ok: bool)
      requires lo <= hi <= data.Length
      requires mode.Some?
      modifies this, data
      ensures ok <==> (hi - lo) % 16 == 0
      ensures !ok ==> mode == old(mode) && data[..] == old(data[..])
      ensures ok ==>
        data[..] == old(data[..])[..lo] + Cbc(keys, old(mode).value, old(data[lo..hi])) + old(data[..])[hi..]
      ensures ok ==> mode == Some(CbcChain(keys, old(mode).value, old(data[lo..hi])))
    {
      if (hi - lo) % 16 != 0 {
        return false;
      }
      var chain := mode.value;
      ghost var chain0, before := chain, data[..];
      ghost var plain := data[lo..hi];
      var i := lo;
      while i < hi
        invariant lo <= i <= hi && (i - lo) % 16 == 0
        invariant data[..] == before[..lo] + Cbc(keys, chain0, plain[..i - lo]) + before[i..]
        invariant chain == CbcChain(keys, chain0, plain[..i - lo])
      {
        ghost var n, sealed := i - lo, Cbc(keys, chain0, plain[..i - lo]);
        RoomForBlock(lo, hi, i);
        BlockAt(before, lo, hi, i, sealed);
        CbcExtend(keys, chain0, plain, n);
        chain := SealAt(data, keys, chain, i);
        Splice(before, lo, i, sealed, chain);
        i := i + 16;
      }
      assert plain[..hi - lo] == plain;
      mode := Some(chain);
      return true;
    }
  }

  lemma CbcExtend(keys: Keys, chain: Block, plain: seq<byte>, n: nat)
    requires n % 16 == 0 && n + 16 <= |plain|
    ensures var c := Seal(keys, CbcChain(keys, chain, plain[..n]), plain[n..n + 16]);
      Cbc(keys, chain, plain[..n + 16]) == Cbc(keys, chain, plain[..n]) + c &&
      CbcChain(keys, chain, plain[..n + 16]) == c
  {
    assert plain[..n + 16] == plain[..n] + plain[n..n + 16];
    CbcConcat(keys, chain, plain[..n], plain[n..n + 16]);
    CbcOne(keys, CbcChain(keys, chain, plain[..n]), plain[n..n + 16]);
  }

  lemma BlockAt(before: seq<byte>, lo: nat, hi: nat, i: nat, sealed: seq<byte>)
    requires lo <= i && i + 16 <= hi <= |before| && |sealed| == i - lo
    ensures (before[..lo] + sealed + before[i..])[i..i + 16] == before[lo..hi][i - lo..i - lo + 16]
  {
    var now := before[..lo] + sealed + before[i..];
    var left, right := now[i..i + 16], before[lo..hi][i - lo..i - lo + 16];
    forall k | 0 <= k < 16
      ensures left[k] == right[k]
    {
      assert now[i + k] == before[i..][k];
    }
    assert left == right;
  }

  lemma Splice(before: seq<byte>, lo: nat, i: nat, sealed: seq<byte>, c: Block)
    requires lo <= i && i + 16 <= |before| && |sealed| == i - lo
    ensures var data := before[..lo] + sealed + before[i..];
      data[..i] + c + data[i + 16..] == before[..lo] + (sealed + c) + before[i + 16..]
  {
  }

  lemma RoomForBlock(lo: nat, hi: nat, i: nat)
    requires lo <= i < hi && (hi - lo) % 16 == 0 && (i - lo) % 16 == 0
    ensures i + 16 <= hi && (i + 16 - lo) % 16 == 0
  {
  }

  /** Seals one block of the buffer in place. */
  method SealAt(data: array<byte>, keys: Keys, chain: Block, at: nat) returns (sealed: Block)
    requires at + 16 <= data.Length
    modifies data
    ensures sealed == Seal(keys, chain, old(data[..])[at..at + 16])
    ensures data[..] == old(data[..])[..at] + sealed + old(data[..])[at + 16..]
  {
    assert data[..][at..at + 16] == data[at..at + 16];
    sealed := Seal(keys, chain, data[at..at + 16]);
    Overwrite(data, at, sealed);
  }

  /** Replaces one block of the buffer in place. */
  method Overwrite(data: array<byte>, at: nat, block: Block)
    requires at + 16 <= data.Length
    modifies data
    ensures data[..] == old(data[..])[..at] + block + old(data[..])[at + 16..]
  {
    forall k | 0 <= k < 16 {
      data[at + k] := block[k];
    }
  }
}
