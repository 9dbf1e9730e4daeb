/** How the byte machine of AvcCore treats whole stretches of bytes: the facts
  * that let the transformer copy slices instead of single bytes.
  */
module AvcStretches {
  import opened Bytes
  import opened Escaper
  import opened AnnexB
  import opened AvcCore

  lemma HeaderStretch(cfg: Config, c: Core, data: seq<byte>)
    requires CoreOk(c) && c.mode == Header && data != []
    ensures CoreOk(Classify(cfg, c, data[0]))
    ensures NalBytes(cfg, c, data) == NalBytes(cfg, Classify(cfg, c, data[0]), data)
  {
  }

  lemma {:induction false} PassStretch(cfg: Config, c: Core, data: seq<byte>)
    requires CoreOk(c) && c.mode == Passthrough
    ensures NalBytes(cfg, c, data) == Out(c, Singles(data))
    decreases data
  {
    if data != [] {
      PassStretch(cfg, c, data[1..]);
      assert Singles(data) == [[data[0]]] + Singles(data[1..]);
    }
  }

  lemma {:induction false} ProbeStretch(cfg: Config, c: Core, data: seq<byte>)
    requires CoreOk(c) && c.mode == Protected && !c.encrypted
    requires |c.pending| + |data| < PROBE_SIZE
    ensures NalBytes(cfg, c, data) == Out(c.(pending := c.pending + data), [])
    decreases data
  {
    if data != [] {
      ProbeStretch(cfg, c.(pending := c.pending + [data[0]]), data[1..]);
      assert c.pending + [data[0]] + data[1..] == c.pending + data;
    } else {
      assert c.pending + data == c.pending;
    }
  }

  lemma ProbeComplete(cfg: Config, c: Core, data: seq<byte>)
    requires CoreOk(c) && c.mode == Protected && !c.encrypted
    requires |c.pending| + |data| == PROBE_SIZE
    ensures NalBytes(cfg, c, data) == ProbeFull(cfg, c, c.pending + data)
  {
    var n := |data| - 1;
    var d := c.(pending := c.pending + data[..n]);
    assert data == data[..n] + [data[n]];
    assert d.pending + [data[n]] == c.pending + data;
    ProbeStretch(cfg, c, data[..n]);
    NalConcat(cfg, c, data[..n], [data[n]]);
    NalSingle(cfg, d, data[n]);
    assert NalByte(cfg, d, data[n]) == ProbeFull(cfg, d, c.pending + data);
  }

  lemma NalSingle(cfg: Config, c: Core, b: byte)
    requires CoreOk(c) && c.mode != NoNal
    ensures NalBytes(cfg, c, [b]) == NalByte(cfg, c, b)
  {
    assert [b][1..] == [];
    assert NalByte(cfg, c, b).images + [] == NalByte(cfg, c, b).images;
  }

  lemma {:induction false} SkipStretch(cfg: Config, c: Core, data: seq<byte>)
    requires CoreOk(c) && c.mode == Protected && c.encrypted
    requires |data| <= c.skip
    ensures NalBytes(cfg, c, data) ==
      Out(c.(skip := c.skip - |data|, run := EscRun(c.run, data)), EscImages(c.run, data))
    decreases data
  {
    if data != [] {
      SkipStretch(cfg, c.(skip := c.skip - 1, run := NextRun(c.run, data[0])), data[1..]);
    }
  }

  lemma {:induction false} FillStretch(cfg: Config, c: Core, data: seq<byte>)
    requires CoreOk(c) && c.mode == Protected && c.encrypted && c.skip == 0
    requires |c.pending| + |data| <= BLOCK_SIZE
    ensures NalBytes(cfg, c, data) == Out(c.(pending := c.pending + data), [])
    decreases data
  {
    if data != [] {
      FillStretch(cfg, c.(pending := c.pending + [data[0]]), data[1..]);
      assert c.pending + [data[0]] + data[1..] == c.pending + data;
    } else {
      assert c.pending + data == c.pending;
    }
  }

  /** A full block followed by data is sent, then the data is treated as after that block. */
  lemma BlockStretch(cfg: Config, c: Core, data: seq<byte>)
    requires CoreOk(c) && c.mode == Protected && c.encrypted && c.skip == 0
    requires |c.pending| == BLOCK_SIZE && data != []
    ensures var o := BlockFull(cfg, c);
      CoreOk(o.core) &&
      var p := NalBytes(cfg, o.core, data);
      NalBytes(cfg, c, data) == Out(p.core, o.images + p.images)
  {
    var o := BlockFull(cfg, c);
    var first, firstAfter := NalByte(cfg, c, data[0]), NalByte(cfg, o.core, data[0]);
    assert first.core == firstAfter.core && first.images == o.images + firstAfter.images;
    ConcatAssociates(o.images, firstAfter.images, NalBytes(cfg, first.core, data[1..]).images);
  }

  // ---- stretches of the elementary stream ----

  lemma {:induction false} ZeroStretch(cfg: Config, c: Core, n: nat)
    requires CoreOk(c)
    ensures FeedAll(cfg, c, Zeros(n)) == Done(Out(c.(zeroRun := c.zeroRun + n), []))
    decreases n
  {
    if n > 0 {
      ZeroStretch(cfg, c.(zeroRun := c.zeroRun + 1), n - 1);
      assert Zeros(n)[1..] == Zeros(n - 1);
    }
  }

  lemma NoStartCodeTail(z: nat, data: seq<byte>)
    requires data != [] && NoStartCode(Zeros(z) + data) && data[0] != 0
    ensures !(z >= 2 && data[0] == 1)
    ensures NoStartCode(data[1..])
  {
    var all, rest, i0: int := Zeros(z) + data, data[1..], z - 2;
    assert !StartCodeAt(all, i0);
    forall i ensures !StartCodeAt(rest, i) {
      assert !StartCodeAt(all, i + z + 1);
    }
  }

  /** Data without a start code that does not end in a zero is NAL data, held zeros included. */
  lemma {:induction false} DataStretch(cfg: Config, c: Core, data: seq<byte>)
    requires CoreOk(c) && c.mode != NoNal
    requires data != [] && data[|data| - 1] != 0 && NoStartCode(Zeros(c.zeroRun) + data)
    ensures FeedAll(cfg, c, data) == Done(NalBytes(cfg, c.(zeroRun := 0), Zeros(c.zeroRun) + data))
    decreases data
  {
    var z, rest := c.zeroRun, data[1..];
    if data[0] == 0 {
      assert Zeros(z + 1) + rest == Zeros(z) + data;
      DataStretch(cfg, c.(zeroRun := z + 1), rest);
      FeedZero(cfg, c, data);
    } else {
      NoStartCodeTail(z, data);
      DataByte(cfg, c, data[0]);
      var o := NalBytes(cfg, c.(zeroRun := 0), Zeros(z) + [data[0]]);
      if rest != [] {
        assert Zeros(0) + rest == rest && o.core.(zeroRun := 0) == o.core;
        DataStretch(cfg, o.core, rest);
      }
      DataJoin(cfg, c, Zeros(z) + [data[0]], data, o);
      Regroup(z, data);
    }
  }

  lemma FeedZero(cfg: Config, c: Core, data: seq<byte>)
    requires CoreOk(c) && data != [] && data[0] == 0
    ensures FeedAll(cfg, c, data) == FeedAll(cfg, c.(zeroRun := c.zeroRun + 1), data[1..])
  {
    var o := Out(c.(zeroRun := c.zeroRun + 1), []);
    assert Feed(cfg, c, data[0]) == Done(o);
    var rest := FeedAll(cfg, o.core, data[1..]);
    if rest.Failed? {
      FeedFails(cfg, c, data, o);
    } else {
      FeedCons(cfg, c, data, o, rest.out);
      assert [] + rest.out.images == rest.out.images;
    }
  }

  lemma FeedFails(cfg: Config, c: Core, data: seq<byte>, o: Out)
    requires CoreOk(c) && data != [] && Feed(cfg, c, data[0]) == Done(o) && FeedAll(cfg, o.core, data[1..]).Failed?
    ensures FeedAll(cfg, c, data) == FeedAll(cfg, o.core, data[1..])
  {
  }

  lemma DataJoin(cfg: Config, c: Core, first: seq<byte>, data: seq<byte>, o: Out)
    requires CoreOk(c) && c.mode != NoNal && data != [] && first != []
    requires o == NalBytes(cfg, c.(zeroRun := 0), first) && Feed(cfg, c, data[0]) == Done(o)
    requires FeedAll(cfg, o.core, data[1..]) == Done(NalBytes(cfg, o.core, data[1..]))
    ensures FeedAll(cfg, c, data) == Done(NalBytes(cfg, c.(zeroRun := 0), first + data[1..]))
  {
    NalConcat(cfg, c.(zeroRun := 0), first, data[1..]);
    FeedCons(cfg, c, data, o, NalBytes(cfg, o.core, data[1..]));
  }

  lemma DataByte(cfg: Config, c: Core, b: byte)
    requires CoreOk(c) && c.mode != NoNal && b != 0 && !(c.zeroRun >= 2 && b == 1)
    ensures Feed(cfg, c, b) == Done(NalBytes(cfg, c.(zeroRun := 0), Zeros(c.zeroRun) + [b]))
    ensures Feed(cfg, c, b).out.core.mode != NoNal && Feed(cfg, c, b).out.core.zeroRun == 0
  {
  }

  lemma FeedCons(cfg: Config, c: Core, data: seq<byte>, o: Out, more: Out)
    requires CoreOk(c) && data != [] && Feed(cfg, c, data[0]) == Done(o)
    requires FeedAll(cfg, o.core, data[1..]) == Done(more)
    ensures FeedAll(cfg, c, data) == Done(Out(more.core, o.images + more.images))
  {
  }

  lemma Regroup(z: nat, data: seq<byte>)
    requires data != []
    ensures Zeros(z) + data == Zeros(z) + [data[0]] + data[1..]
  {
  }

  /** The same data outside any NAL unit is refused. */
  lemma {:induction false} StrayStretch(cfg: Config, c: Core, data: seq<byte>)
    requires CoreOk(c) && c.mode == NoNal
    requires data != [] && data[|data| - 1] != 0 && NoStartCode(Zeros(c.zeroRun) + data)
    ensures FeedAll(cfg, c, data) == Failed(BytesBeforeStartCode)
    decreases data
  {
    var z := c.zeroRun;
    if data[0] == 0 {
      assert Zeros(z + 1) + data[1..] == Zeros(z) + data;
      StrayStretch(cfg, c.(zeroRun := z + 1), data[1..]);
    } else {
      NoStartCodeTail(z, data);
    }
  }

  /** At least two zeros, held or new, and a 01: the old NAL unit ends and a new one begins. */
  lemma StartCodeStretch(cfg: Config, c: Core, n: nat)
    requires CoreOk(c) && c.zeroRun + n >= 2
    ensures c.mode == Header ==> FeedAll(cfg, c, Zeros(n) + [1]) == Failed(StartCodeWithoutHeader)
    ensures c.mode != Header ==>
      var o := FinishNal(c);
      FeedAll(cfg, c, Zeros(n) + [1]) == Done(Out(Begin(o.core), o.images + Singles(Zeros(c.zeroRun + n) + [1])))
  {
    ZeroStretch(cfg, c, n);
    FeedConcat(cfg, c, Zeros(n), [1]);
    var d := c.(zeroRun := c.zeroRun + n);
    FeedSingle(cfg, d, 1);
    assert FinishNal(d).images == FinishNal(c).images;
    assert Begin(FinishNal(d).core) == Begin(FinishNal(c).core);
  }

  lemma FeedSingle(cfg: Config, c: Core, b: byte)
    requires CoreOk(c)
    ensures FeedAll(cfg, c, [b]) == Feed(cfg, c, b)
  {
    assert [b][1..] == [];
    var step := Feed(cfg, c, b);
    if step.Done? {
      assert step.out.images + [] == step.out.images;
    }
  }
}
