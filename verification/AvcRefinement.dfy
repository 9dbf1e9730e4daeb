/** The byte machine computes the definition, for every stream; and what the
  * definition does to a stream can be undone.
  */
module AvcRefinement {
  import opened Bytes
  import opened Cipher
  import opened Escaper
  import opened AnnexB
  import opened AvcCore
  import opened AvcStretches

  // ---- one NAL unit ----

  /** Everything a NAL unit sends on from state c: its data, then its last island. */
  function NalRest(cfg: Config, c: Core, data: seq<byte>): Images
    requires CoreOk(c) && (data != [] ==> c.mode != NoNal)
  {
    var o := NalBytes(cfg, c, data);
    o.images + FinishNal(o.core).images
  }

  lemma NalRestConcat(cfg: Config, c: Core, a: seq<byte>, b: seq<byte>)
    requires CoreOk(c) && c.mode != NoNal
    ensures var o := NalBytes(cfg, c, a);
      o.core.mode != NoNal && NalRest(cfg, c, a + b) == o.images + NalRest(cfg, o.core, b)
  {
    NalConcat(cfg, c, a, b);
    var o := NalBytes(cfg, c, a);
    var p := NalBytes(cfg, o.core, b);
    ConcatAssociates(o.images, p.images, FinishNal(p.core).images);
  }

  /** In the clear region the rest of the NAL unit is the pattern after `skip` bytes. */
  lemma {:induction false} SkipThenPattern(cfg: Config, c: Core, rest: seq<byte>)
    requires CoreOk(c) && c.mode == Protected && c.encrypted && c.pending == []
    ensures NalRest(cfg, c, rest) == EscImages(c.run, AfterSkip(cfg.keys, c.skip, c.chain.value, rest))
    decreases |rest|, 1
  {
    if |rest| <= c.skip {
      SkipStretch(cfg, c, rest);
      assert NalRest(cfg, c, rest) == EscImages(c.run, rest) + [];
    } else {
      var clear, more := rest[..c.skip], rest[c.skip..];
      assert rest == clear + more;
      SkipStretch(cfg, c, clear);
      NalRestConcat(cfg, c, clear, more);
      PatternFrom(cfg, c.(skip := 0, run := EscRun(c.run, clear)), more);
      EscConcat(c.run, clear, Pattern(cfg.keys, c.chain.value, more));
    }
  }

  /** At a candidate block the rest of the NAL unit is the pattern. */
  lemma {:induction false} PatternFrom(cfg: Config, c: Core, rest: seq<byte>)
    requires CoreOk(c) && c.mode == Protected && c.encrypted && c.pending == [] && c.skip == 0
    ensures NalRest(cfg, c, rest) == EscImages(c.run, Pattern(cfg.keys, c.chain.value, rest))
    decreases |rest|, 0
  {
    if |rest| <= BLOCK_SIZE {
      FillStretch(cfg, c, rest);
      assert c.pending + rest == rest;
      assert NalRest(cfg, c, rest) == [] + EscImages(c.run, rest);
    } else {
      var block, more := rest[..BLOCK_SIZE], rest[BLOCK_SIZE..];
      assert rest == block + more;
      FillStretch(cfg, c, block);
      assert c.pending + block == block;
      NalRestConcat(cfg, c, block, more);
      var full := c.(pending := block);
      BlockStretch(cfg, full, more);
      var o := BlockFull(cfg, full);
      var p := NalBytes(cfg, o.core, more);
      ConcatAssociates(o.images, p.images, FinishNal(p.core).images);
      SkipThenPattern(cfg, o.core, more);
      var sealed := Seal(cfg.keys, c.chain.value, block);
      EscConcat(c.run, sealed, AfterSkip(cfg.keys, PATTERN_SKIP, sealed, more));
    }
  }

  /** From its start code to its end, a NAL unit is transformed as defined. */
  lemma NalWhole(cfg: Config, c: Core, nal: seq<byte>)
    requires CoreOk(c) && c.mode == Header && c.run == 0 && nal != []
    ensures NalRest(cfg, c, nal) == NalImages(cfg, nal)
  {
    HeaderStretch(cfg, c, nal);
    var d := Classify(cfg, c, nal[0]);
    if d.mode == Passthrough {
      PassStretch(cfg, d, nal);
      assert NalRest(cfg, c, nal) == Singles(nal) + [];
    } else if |nal| < PROBE_SIZE {
      ProbeStretch(cfg, d, nal);
      assert d.pending + nal == nal;
      assert NalRest(cfg, c, nal) == [] + Singles(nal);
    } else {
      NalProtected(cfg, d, nal);
    }
  }

  lemma NalProtected(cfg: Config, d: Core, nal: seq<byte>)
    requires CoreOk(d) && d.mode == Protected && d.pending == [] && d.run == 0 && !d.encrypted
    requires |nal| >= PROBE_SIZE
    ensures NalRest(cfg, d, nal) == EscImages(0, EncryptNal(cfg.keys, nal))
  {
    var probe, more := nal[..PROBE_SIZE], nal[PROBE_SIZE..];
    assert nal == probe + more;
    ProbeComplete(cfg, d, probe);
    assert d.pending + probe == probe;
    NalRestConcat(cfg, d, probe, more);
    var o := ProbeFull(cfg, d, probe);
    SkipThenPattern(cfg, o.core, more);
    var sealed := o.core.chain.value;
    EncryptNalProbe(cfg.keys, nal, sealed);
    EscConcat(0, probe[..CLEAR_LEAD] + sealed + probe[CLEAR_LEAD + BLOCK_SIZE..],
              AfterSkip(cfg.keys, PATTERN_SKIP - 1, sealed, more));
  }

  /** The probe and what follows it, seen as one pattern from offset 32. */
  lemma EncryptNalProbe(keys: Keys, nal: seq<byte>, sealed: Block)
    requires |nal| >= PROBE_SIZE
    requires var probe := nal[..PROBE_SIZE];
      |probe| == PROBE_SIZE && sealed == Seal(keys, keys.iv, probe[CLEAR_LEAD..CLEAR_LEAD + BLOCK_SIZE])
    ensures var probe := nal[..PROBE_SIZE];
      EncryptNal(keys, nal) == probe[..CLEAR_LEAD] + sealed + probe[CLEAR_LEAD + BLOCK_SIZE..]
                               + AfterSkip(keys, PATTERN_SKIP - 1, sealed, nal[PROBE_SIZE..])
  {
    var probe, rest, more := nal[..PROBE_SIZE], nal[CLEAR_LEAD..], nal[PROBE_SIZE..];
    var lead, clear := probe[..CLEAR_LEAD], probe[CLEAR_LEAD + BLOCK_SIZE..];
    assert nal[..CLEAR_LEAD] == lead && |clear| == 1;
    assert rest[..BLOCK_SIZE] == probe[CLEAR_LEAD..CLEAR_LEAD + BLOCK_SIZE];
    assert rest[BLOCK_SIZE..] == clear + more;
    SkipOne(keys, sealed, clear, more);
    ConcatAssociates(lead, sealed, clear + AfterSkip(keys, PATTERN_SKIP - 1, sealed, more));
    ConcatAssociates(lead + sealed, clear, AfterSkip(keys, PATTERN_SKIP - 1, sealed, more));
  }

  /** The probe's last byte is the first of the clear region. */
  lemma SkipOne(keys: Keys, chain: Block, clear: seq<byte>, more: seq<byte>)
    requires |clear| == 1
    ensures AfterSkip(keys, PATTERN_SKIP, chain, clear + more) == clear + AfterSkip(keys, PATTERN_SKIP - 1, chain, more)
  {
    var tail := clear + more;
    if |tail| > PATTERN_SKIP {
      assert tail[..PATTERN_SKIP] == clear + more[..PATTERN_SKIP - 1];
      assert tail[PATTERN_SKIP..] == more[PATTERN_SKIP - 1..];
      ConcatAssociates(clear, more[..PATTERN_SKIP - 1], Pattern(keys, chain, more[PATTERN_SKIP - 1..]));
    }
  }

  // ---- the whole stream ----

  lemma RunFromConcat(cfg: Config, c: Core, a: seq<byte>, b: seq<byte>)
    requires CoreOk(c)
    ensures FeedAll(cfg, c, a).Failed? ==> RunFrom(cfg, c, a + b) == FeedAll(cfg, c, a)
    ensures FeedAll(cfg, c, a).Done? ==>
      var o := FeedAll(cfg, c, a).out;
      RunFrom(cfg, c, a + b) ==
        match RunFrom(cfg, o.core, b)
        case Failed(e) => Failed(e)
        case Done(p) => Done(Out(p.core, o.images + p.images))
  {
    FeedConcat(cfg, c, a, b);
    if FeedAll(cfg, c, a).Done? {
      var o := FeedAll(cfg, c, a).out;
      var p := FeedAll(cfg, o.core, b);
      if p.Done? && Finish(p.out.core).Done? {
        ConcatAssociates(o.images, p.out.images, Finish(p.out.core).out.images);
      }
    }
  }

  /** A start code followed by a NAL unit: the old unit ends, the new one is consumed. */
  lemma UnitStep(cfg: Config, c: Core, u: Unit)
    requires CoreOk(c) && c.mode != Header && c.zeroRun == 0 && UnitOk(u)
    ensures var framing := Zeros(u.zeros) + [1];
      var start := FinishNal(c);
      var o := NalBytes(cfg, Begin(start.core), u.nal);
      FeedAll(cfg, c, framing + u.nal) == Done(Out(o.core, start.images + Singles(framing) + o.images))
      && o.core.zeroRun == 0 && o.core.mode != Header && o.core.mode != NoNal
  {
    StartCodeStretch(cfg, c, u.zeros);
    var begun := Begin(FinishNal(c).core);
    assert Zeros(0) + u.nal == u.nal;
    DataStretch(cfg, begun, u.nal);
    assert begun.(zeroRun := 0) == begun;
    FeedConcat(cfg, c, Zeros(u.zeros) + [1], u.nal);
  }

  /** A proper stream is accepted and every byte gets the image the definition gives it. */
  lemma {:induction false} RunUnits(cfg: Config, c: Core, s: Stream)
    requires CoreOk(c) && c.mode != Header && c.zeroRun == 0 && StreamOk(s)
    ensures RunFrom(cfg, c, Render(s)).Done?
    ensures RunFrom(cfg, c, Render(s)).out.images == FinishNal(c).images + StreamImages(cfg, s)
    decreases |s.units|
  {
    if s.units == [] {
      ZeroStretch(cfg, c, s.trailing);
      var d := c.(zeroRun := s.trailing);
      assert FinishNal(d).images == FinishNal(c).images;
      assert [] + Finish(d).out.images == Finish(d).out.images;
    } else {
      var u, more := s.units[0], Stream(s.units[1..], s.trailing);
      assert UnitOk(u);
      UnitStep(cfg, c, u);
      var framing, start := Zeros(u.zeros) + [1], FinishNal(c);
      RunFromConcat(cfg, c, framing + u.nal, Render(more));
      var begun := Begin(start.core);
      var o := NalBytes(cfg, begun, u.nal);
      NalWhole(cfg, begun, u.nal);
      RunUnits(cfg, o.core, more);
      RegroupImages(start.images, Singles(framing), o.images, FinishNal(o.core).images, StreamImages(cfg, more));
    }
  }

  lemma RegroupImages(a: Images, b: Images, c: Images, d: Images, e: Images)
    ensures (a + b + c) + (d + e) == a + (b + (c + d) + e)
  {
  }

  /** A stream that cannot be split is refused. */
  lemma {:induction false} RunRejects(cfg: Config, c: Core, data: seq<byte>)
    requires CoreOk(c) && c.mode != Header && c.zeroRun == 0
    requires c.mode == NoNal || Boundary(data)
    requires Split(data).None?
    ensures RunFrom(cfg, c, data).Failed?
    decreases |data|
  {
    var z := LeadZeros(data);
    if z < 2 || data[z] != 1 {
      StrayRun(cfg, c, data, z);
    } else {
      var rest := data[z + 1..];
      var n := NalLength(rest);
      CutAt(data, z, n);
      NalLengthSound(rest);
      assert UnfoldEnd(0);
      StartCodeStretch(cfg, c, z);
      if n == 0 {
        assert data == Zeros(z) + [1] + rest;
        RunFromConcat(cfg, c, Zeros(z) + [1], rest);
        assert rest[0..] == rest;
        EmptyNal(cfg, Begin(FinishNal(c).core), rest);
      } else {
        var u := Unit(z, rest[..n]);
        UnitStep(cfg, c, u);
        assert data == Zeros(z) + [1] + u.nal + rest[n..];
        RunFromConcat(cfg, c, Zeros(z) + [1] + u.nal, rest[n..]);
        RunRejects(cfg, NalBytes(cfg, Begin(FinishNal(c).core), u.nal).core, rest[n..]);
      }
    }
  }

  /** Data before the first start code. */
  lemma StrayRun(cfg: Config, c: Core, data: seq<byte>, z: nat)
    requires CoreOk(c) && c.mode == NoNal && c.zeroRun == 0
    requires z == LeadZeros(data) < |data| && (z < 2 || data[z] != 1)
    ensures RunFrom(cfg, c, data).Failed?
  {
    var head := data[..z + 1];
    CutAt(data, z, 0);
    assert data[z + 1..][..0] == [];
    assert head == Zeros(z) + [data[z]];
    StrayHead(z, data[z]);
    StrayStretch(cfg, c, head);
    assert data == head + data[z + 1..];
    RunFromConcat(cfg, c, head, data[z + 1..]);
  }

  lemma StrayHead(z: nat, b: byte)
    requires b != 0 && !(z >= 2 && b == 1)
    ensures NoStartCode(Zeros(0) + (Zeros(z) + [b]))
  {
    NoStartCodePrepend(z, b, []);
    assert Zeros(z) + [b] + [] == Zeros(0) + (Zeros(z) + [b]);
  }

  /** A start code with no NAL unit after it. */
  lemma EmptyNal(cfg: Config, c: Core, rest: seq<byte>)
    requires CoreOk(c) && c.mode == Header && c.zeroRun == 0 && Boundary(rest)
    ensures RunFrom(cfg, c, rest).Failed?
  {
    var z := LeadZeros(rest);
    ZeroStretch(cfg, c, z);
    if z == |rest| {
      assert rest == rest[..z];
    } else {
      StartCodeStretch(cfg, c, z);
      assert rest == Zeros(z) + [1] + rest[z + 1..];
      RunFromConcat(cfg, c, Zeros(z) + [1], rest[z + 1..]);
    }
  }

  /** The machine accepts exactly the streams that split, and computes the definition on them. */
  lemma RunIsSplit(cfg: Config, data: seq<byte>)
    ensures RunFrom(cfg, Init, data).Done? <==> Split(data).Some?
    ensures Split(data).Some? ==> RunFrom(cfg, Init, data).out.images == StreamImages(cfg, Split(data).value)
  {
    if Split(data).Some? {
      SplitSound(data);
      var s := Split(data).value;
      RunUnits(cfg, Init, s);
      assert [] + StreamImages(cfg, s) == StreamImages(cfg, s);
    } else {
      RunRejects(cfg, Init, data);
    }
  }
}
