/** Streaming emulation prevention (ts/codecs/avc/ebsp.go), section 7.4.1 of
  * Rec. ITU-T H.264: inside a NAL unit 00 00 must not be followed by 00, 01, 02,
  * so a 03 is inserted before any byte 00..03 that follows two zeros.
  */
module Escaper {
  import opened Bytes

  /** Length of the zero run (0, 1 or 2) that ends the bytes emitted so far. */
  type Run = r: int | 0 <= r <= 2

  /** What one byte becomes after a zero run of length `run`. */
  function Image(run: Run, b: byte): (r: seq<byte>) {
    if run == 2 && b <= 3 then [3, b] else [b]
  }

  function NextRun(run: Run, b: byte): Run {
    if b != 0 then 0 else if run == 2 then 1 else run + 1
  }

  /** The byte-at-a-time escaper: one image per source byte. */
  function EscImages(run: Run, data: seq<byte>): (r: Images)
    ensures |r| == |data|
    decreases data
  {
    if data == [] then [] else [Image(run, data[0])] + EscImages(NextRun(run, data[0]), data[1..])
  }

  function EscRun(run: Run, data: seq<byte>): Run
    decreases data
  {
    if data == [] then run else EscRun(NextRun(run, data[0]), data[1..])
  }

  function Escape(run: Run, data: seq<byte>): seq<byte> {
    Flatten(EscImages(run, data))
  }

  /** Appending a then b is appending a + b. */
  lemma {:induction false} EscConcat(run: Run, a: seq<byte>, b: seq<byte>)
    ensures EscImages(run, a + b) == EscImages(run, a) + EscImages(EscRun(run, a), b)
    ensures EscRun(run, a + b) == EscRun(EscRun(run, a), b)
    ensures Escape(run, a + b) == Escape(run, a) + Escape(EscRun(run, a), b)
    decreases a
  {
    if a == [] {
      assert a + b == b;
    } else {
      assert (a + b)[0] == a[0] && (a + b)[1..] == a[1..] + b;
      EscConcat(NextRun(run, a[0]), a[1..], b);
      ConcatAssociates([Image(run, a[0])], EscImages(NextRun(run, a[0]), a[1..]), EscImages(EscRun(run, a), b));
    }
    FlattenConcat(EscImages(run, a), EscImages(EscRun(run, a), b));
  }

  lemma EscOne(run: Run, b: byte)
    ensures EscImages(run, [b]) == [Image(run, b)]
    ensures EscRun(run, [b]) == NextRun(run, b)
    ensures Escape(run, [b]) == Image(run, b)
  {
    assert [b][1..] == [];
    assert Flatten([Image(run, b)]) == Image(run, b) + Flatten([Image(run, b)][1..]);
  }

  // ---- the fast path ----

  predicate ZeroPairAt(data: seq<byte>, i: int) {
    0 <= i && i + 1 < |data| && data[i] == 0 && data[i + 1] == 0
  }

  /** No two adjacent zeros. */
  ghost predicate NoZeroPair(data: seq<byte>) {
    forall i :: !ZeroPairAt(data, i)
  }

  /** Without a zero pair nothing is inserted. */
  lemma {:induction false} EscNoZeroPair(run: Run, data: seq<byte>)
    requires run < 2 && NoZeroPair(data)
    requires run == 1 && data != [] ==> data[0] != 0
    ensures EscImages(run, data) == Singles(data)
    ensures data != [] ==> EscRun(run, data) == if data[|data| - 1] == 0 then 1 else 0
    decreases data
  {
    if data != [] {
      var rest := data[1..];
      assert NoZeroPair(rest) by {
        forall i ensures !ZeroPairAt(rest, i) {
          assert !ZeroPairAt(data, i + 1);
        }
      }
      assert !ZeroPairAt(data, 0);
      EscNoZeroPair(NextRun(run, data[0]), rest);
      assert Singles(data) == [[data[0]]] + Singles(rest);
    }
  }

  lemma NoZeroPairExtend(data: seq<byte>, i: nat)
    requires i + 1 < |data| && NoZeroPair(data[..i + 1]) && !ZeroPairAt(data, i)
    ensures NoZeroPair(data[..i + 2])
  {
    var longer := data[..i + 2];
    forall j ensures !ZeroPairAt(longer, j) {
      assert !ZeroPairAt(data[..i + 1], j);
    }
  }

  /** bytes.Index(data, {0, 0}). */
  method IndexZeroPair(data: seq<byte>) returns (i: int)
    ensures -1 <= i
    ensures i == -1 ==> NoZeroPair(data)
    ensures i >= 0 ==> ZeroPairAt(data, i) && NoZeroPair(data[..i + 1])
  {
    i := 0;
    while i + 1 < |data|
      invariant 0 <= i
      invariant |data| > 0 ==> i < |data| && NoZeroPair(data[..i + 1])
    {
      if data[i] == 0 && data[i + 1] == 0 {
        return;
      }
      NoZeroPairExtend(data, i);
      i := i + 1;
    }
    assert |data| > 0 ==> data[..i + 1] == data;
    i := -1;
  }

  /** ebspEscaper: only the length of the pending zero run is kept. */
  class EbspEscaper {
    var zeroRun: Run

    constructor ()
      ensures zeroRun == 0
    {
      zeroRun := 0;
    }

    method Reset()
      modifies this
      ensures zeroRun == 0
    {
      zeroRun := 0;
    }

    /** The length of the stretch that is copied as it is: up to and including the
      * next zero pair, or everything. */
    method Stretch(data: seq<byte>) returns (n: nat)
      requires data != [] && zeroRun < 2 && (zeroRun == 1 ==> data[0] != 0)
      modifies this
      ensures 0 < n <= |data|
      ensures Escape(old(zeroRun), data[..n]) == data[..n]
      ensures zeroRun == EscRun(old(zeroRun), data[..n])
    {
      ghost var run := zeroRun;
      zeroRun := 0;
      var i := IndexZeroPair(data);
      if i < 0 {
        EscNoZeroPair(run, data);
        FlattenSingles(data);
        if data[|data| - 1] == 0 {
          zeroRun := 1;
        }
        assert data[..|data|] == data;
        return |data|;
      }
      EscUpToZeroPair(run, data, i);
      zeroRun := 2;
      return i + 2;
    }

    /** Copies whole stretches up to the next zero pair; equals the byte-at-a-time escaper. */
    method Append(dst: seq<byte>, data: seq<byte>) returns (r: seq<byte>)
      modifies this
      ensures r == dst + Escape(old(zeroRun), data)
      ensures zeroRun == EscRun(old(zeroRun), data)
    {
      r := dst;
      var k := 0;
      ghost var run0 := zeroRun;
      assert data[..0] == [];
      while k < |data|
        invariant 0 <= k <= |data|
        invariant r == dst + Escape(run0, data[..k])
        invariant zeroRun == EscRun(run0, data[..k])
        decreases |data| - k
      {
        ghost var k0, run, before := k, zeroRun, r;
        var rest := data[k..];
        ghost var piece: seq<byte>, image: seq<byte>;
        if zeroRun == 2 {
          var b := rest[0];
          piece, image := [b], Image(run, b);
          EscOne(run, b);
          if b <= 3 {
            r := r + [3];
          }
          r := r + [b];
          assert r == before + image;
          zeroRun := if b == 0 then 1 else 0;
          k := k + 1;
        } else if zeroRun == 1 && rest[0] == 0 {
          piece, image := [0], [0];
          EscOne(run, 0);
          r := r + [0];
          zeroRun := 2;
          k := k + 1;
        } else {
          var n := Stretch(rest);
          piece, image := rest[..n], rest[..n];
          r := r + rest[..n];
          k := k + n;
        }
        assert data[..k] == data[..k0] + piece;
        EscAppend(run0, dst, before, image, data[..k0], piece);
      }
      assert data[..k] == data;
    }
  }

  /** One more stretch has been escaped onto the output. */
  lemma EscAppend(run0: Run, dst: seq<byte>, before: seq<byte>, image: seq<byte>, done: seq<byte>, piece: seq<byte>)
    requires before == dst + Escape(run0, done)
    requires image == Escape(EscRun(run0, done), piece)
    ensures before + image == dst + Escape(run0, done + piece)
    ensures EscRun(run0, done + piece) == EscRun(EscRun(run0, done), piece)
  {
    EscConcat(run0, done, piece);
    ConcatAssociates(dst, Escape(run0, done), image);
  }

  /** Up to and including the first zero pair nothing is inserted. */
  lemma EscUpToZeroPair(run: Run, data: seq<byte>, i: nat)
    requires run < 2 && ZeroPairAt(data, i) && NoZeroPair(data[..i + 1])
    requires run == 1 ==> data[0] != 0
    ensures Escape(run, data[..i + 2]) == data[..i + 2]
    ensures EscRun(run, data[..i + 2]) == 2
  {
    assert data[..i + 2] == data[..i + 1] + [0];
    EscNoZeroPair(run, data[..i + 1]);
    FlattenSingles(data[..i + 1]);
    EscConcat(run, data[..i + 1], [0]);
    EscOne(1, 0);
  }

  // ---- what escaping achieves ----

  /** The first zero pair decides: up to it nothing changes, then a 03 goes in front of the next
    * byte exactly if that is at most 3, and after it the zeros are counted anew. */
  lemma FirstZeroPair(data: seq<byte>, i: nat)
    requires ZeroPairAt(data, i) && NoZeroPair(data[..i + 1])
    ensures i + 2 == |data| ==> Escape(0, data) == data
    ensures i + 2 < |data| ==>
      Escape(0, data) == data[..i + 2] + (if data[i + 2] <= 3 then [3, data[i + 2]] else [data[i + 2]])
                         + Escape(if data[i + 2] == 0 then 1 else 0, data[i + 3..])
  {
    EscUpToZeroPair(0, data, i);
    if i + 2 == |data| {
      assert data[..i + 2] == data;
    } else {
      var head, b, tail := data[..i + 2], data[i + 2], data[i + 3..];
      assert data == (head + [b]) + tail;
      EscConcat(0, head + [b], tail);
      EscConcat(0, head, [b]);
      EscOne(2, b);
    }
  }

  /** Without a zero pair nothing changes, not even behind one zero, unless another follows it. */
  lemma NoPairNoChange(run: Run, data: seq<byte>)
    requires run < 2 && NoZeroPair(data) && (run == 1 && data != [] ==> data[0] != 0)
    ensures Escape(run, data) == data
  {
    EscNoZeroPair(run, data);
    FlattenSingles(data);
  }

  /** Length of the trailing zero run, where two or more count as 2. */
  function Tail(run: Run, b: byte): Run {
    if b != 0 then 0 else if run == 2 then 2 else run + 1
  }

  /** No 00 00 followed by 00, 01 or 02, given `run` zeros before `data`. */
  predicate Clean(run: Run, data: seq<byte>)
    decreases data
  {
    data == [] || (!(run == 2 && data[0] <= 2) && Clean(Tail(run, data[0]), data[1..]))
  }

  /** Drops every 03 that follows two zeros. */
  function Unescape(run: Run, data: seq<byte>): seq<byte>
    decreases data
  {
    if data == [] then []
    else if run == 2 && data[0] == 3 then Unescape(0, data[1..])
    else [data[0]] + Unescape(Tail(run, data[0]), data[1..])
  }

  lemma {:induction false} EscapeClean(run: Run, data: seq<byte>)
    ensures Clean(run, Escape(run, data))
    decreases data
  {
    if data != [] {
      var b := data[0];
      var rest := Escape(NextRun(run, b), data[1..]);
      EscapeClean(NextRun(run, b), data[1..]);
      assert Escape(run, data) == Image(run, b) + rest;
      if run == 2 && b <= 3 {
        assert Escape(run, data)[1..] == [b] + rest;
        assert ([b] + rest)[1..] == rest;
      } else {
        assert Escape(run, data)[1..] == rest;
      }
    }
  }

  /** Escaping loses nothing. */
  lemma {:induction false} UnescapeEscape(run: Run, data: seq<byte>)
    ensures Unescape(run, Escape(run, data)) == data
    decreases data
  {
    if data != [] {
      var b := data[0];
      var rest := Escape(NextRun(run, b), data[1..]);
      UnescapeEscape(NextRun(run, b), data[1..]);
      assert Escape(run, data) == Image(run, b) + rest;
      if run == 2 && b <= 3 {
        assert Escape(run, data)[1..] == [b] + rest;
        assert ([b] + rest)[1..] == rest;
      } else {
        assert Escape(run, data)[1..] == rest;
      }
    }
  }

  /** Clean, stated over positions. */
  lemma {:induction false} CleanAt(run: Run, data: seq<byte>, i: nat)
    requires Clean(run, data) && i + 2 < |data| && data[i] == 0 && data[i + 1] == 0
    ensures data[i + 2] > 2
    decreases i
  {
    if i > 0 {
      CleanAt(Tail(run, data[0]), data[1..], i - 1);
    } else {
      var rest := data[1..];
      assert rest[0] == data[1] && rest[1..][0] == data[2];
      assert Clean(Tail(Tail(run, 0), 0), rest[1..]);
    }
  }

  /** At most (n - 1) / 2 bytes are inserted into n >= 1 bytes: each insertion
    * uses up a zero pair that no other insertion uses. */
  lemma {:induction false} EscapeLength(run: Run, data: seq<byte>)
    requires data != []
    ensures |data| <= |Escape(run, data)|
    ensures 2 * (|Escape(run, data)| - |data|) <= |data| + run - 1
    decreases data
  {
    var b := data[0];
    assert Escape(run, data) == Image(run, b) + Escape(NextRun(run, b), data[1..]);
    if data[1..] != [] {
      EscapeLength(NextRun(run, b), data[1..]);
    }
  }
}
