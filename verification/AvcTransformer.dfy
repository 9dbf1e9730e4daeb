/** ts/codecs/avc/transformer.go: the streaming AVC transformer, proved against
  * the byte machine of AvcCore and, through it, against the definition over the
  * whole elementary stream.
  */
module AvcTransformer {
  import opened Bytes
  import opened Cipher
  import opened Wrappers
  import opened Escaper
  import opened AnnexB
  import opened AvcCore
  import opened AvcStretches
  import opened AvcRefinement
  import opened AvcFeeds
  import Q = PesQueues

  datatype Failure =
    | PreviousPESOpen
    | HeaderTooShort
    | PayloadOutsidePES
    | NoOpenPES
    | PESStillOpen
    | BadStream(error: AvcCore.Error)

  /** The output header: PES_packet_length is set to 0, which means unbounded. */
  function ClearLength(header: seq<byte>): seq<byte>
    requires |header| >= 6
  {
    header[4 := 0][5 := 0]
  }

  function WriteImages(escaped: bool, run: Run, data: seq<byte>): (r: Images)
    ensures |r| == |data|
  {
    if escaped then EscImages(run, data) else Singles(data)
  }

  function WriteRun(escaped: bool, run: Run, data: seq<byte>): Run {
    if escaped then EscRun(run, data) else run
  }

  lemma WriteConcat(escaped: bool, run: Run, a: seq<byte>, b: seq<byte>)
    ensures WriteImages(escaped, run, a + b) ==
      WriteImages(escaped, run, a) + WriteImages(escaped, WriteRun(escaped, run, a), b)
    ensures WriteRun(escaped, run, a + b) == WriteRun(escaped, WriteRun(escaped, run, a), b)
  {
    if escaped {
      EscConcat(run, a, b);
    }
  }

  lemma WriteExtend(escaped: bool, run: Run, data: seq<byte>, k: nat, n: nat)
    requires k + n <= |data|
    ensures WriteImages(escaped, run, data[..k + n])
      == WriteImages(escaped, run, data[..k]) + WriteImages(escaped, WriteRun(escaped, run, data[..k]), data[k..k + n])
    ensures WriteRun(escaped, run, data[..k + n]) ==
      WriteRun(escaped, WriteRun(escaped, run, data[..k]), data[k..k + n])
  {
    assert data[..k + n] == data[..k] + data[k..k + n];
    WriteConcat(escaped, run, data[..k], data[k..k + n]);
  }

  ghost predicate UnfoldValid(k: int) {
    true
  }

  class Transformer {
    const cfg: Config
    const queue: Q.PESQueue
    const block: CBCEncryptor?
    const escaper: EbspEscaper
    /** The 49-byte probe, later the pending 16-byte block. */
    const pattern: array<byte>

    /** Everything a call may change. */
    ghost const repr: set<object>

    var inputPESOpen: bool
    var nalState: Mode
    var zeroRun: nat
    var nalEncrypted: bool
    var patternLen: nat
    var skip: nat

    /** Every elementary-stream byte received so far. */
    ghost var stream: seq<byte>

    /** The state the byte machine would be in. */
    ghost function State(): Core
      reads this, pattern, escaper, block
      requires patternLen <= pattern.Length
    {
      Core(nalState, zeroRun, nalEncrypted, pattern[..patternLen], skip, escaper.zeroRun,
           if block == null then None else block.mode)
    }

    /** What holds at every point inside a call. */
    ghost predicate Ready()
      reads this, pattern, escaper, block, queue, queue.observer
    {
      && pattern.Length == PROBE_SIZE && patternLen <= PROBE_SIZE
      && (cfg.enabled <==> block != null) && (block != null ==> block.keys == cfg.keys)
      && (nalState == Protected ==> block != null)
      && queue.Valid()
      && CoreOk(State())
    }

    /** What holds between calls: the byte accounting, and that everything received
      * so far was treated as the byte machine treats it. */
    ghost predicate Inv()
      reads this, pattern, escaper, block, queue, queue.observer
    {
      && Ready()
      && queue.owed == Held(State())
      && inputPESOpen == queue.open
      && Feeds(cfg, Init, stream, queue.passedOn, State(), [])
    }

    ghost predicate Valid()
      reads this, pattern, escaper, block, queue, queue.observer
    {
      forall k {:trigger UnfoldValid(k)} :: UnfoldValid(k) ==> Inv()
    }

    constructor (keys: Keys, enabled: bool)
      ensures Valid() && stream == [] && queue.received == [] && queue.events == []
      ensures cfg == Config(keys, enabled) && !inputPESOpen
      ensures fresh(queue) && fresh(queue.observer) && fresh(escaper) && fresh(pattern) && (block != null ==>
        fresh(block))
      ensures repr == {this, pattern, escaper, queue} + if block == null then {} else {block}
    {
      cfg := Config(keys, enabled);
      var e := new EbspEscaper();
      var p := new byte[PROBE_SIZE](_ => 0);
      var b: CBCEncryptor? := null;
      ghost var cryptor: set<object> := {};
      if enabled {
        var c := new CBCEncryptor(keys);
        b, cryptor := c, {c};
      }
      var q := new Q.PESQueue();
      escaper, pattern, block, queue := e, p, b, q;
      repr := {this, p, e, q} + cryptor;
      inputPESOpen, nalState, zeroRun, nalEncrypted, patternLen, skip := false, NoNal, 0, false, 0, 0;
      stream := [];
      new;
      assert pattern[..0] == [];
      FeedsInit(cfg, Init, []);
    }

    /** The source bytes with the given images were passed on; nothing else changed in the queue. */
    twostate predicate Sends(images: Images)
      reads queue, queue.observer
    {
      && queue.passedOn == old(queue.passedOn) + images
      && queue.owed == old(queue.owed) - |images|
      && queue.received == old(queue.received) && queue.open == old(queue.open)
    }

    /** The part of a write that goes to the first queued PES. */
    method WritePiece(piece: seq<byte>, escaped: bool)
      requires queue.Valid() && queue.pes != [] && |piece| <= queue.pes[0].bytes
      modifies queue, escaper
      ensures queue.Valid()
      ensures escaper.zeroRun == WriteRun(escaped, old(escaper.zeroRun), piece)
      ensures Sends(WriteImages(escaped, old(escaper.zeroRun), piece))
    {
      ghost var images := WriteImages(escaped, escaper.zeroRun, piece);
      var output := piece;
      if escaped {
        output := escaper.Append([], piece);
      } else {
        FlattenSingles(piece);
      }
      queue.WriteFirst(|piece|, output, images);
    }

    /** write: split by the queue, escape if asked. The "missing PES" error cannot occur. */
    method Write(data: seq<byte>, escaped: bool)
      requires queue.Valid() && queue.owed >= |data|
      modifies queue, escaper
      ensures queue.Valid()
      ensures escaper.zeroRun == WriteRun(escaped, old(escaper.zeroRun), data)
      ensures Sends(WriteImages(escaped, old(escaper.zeroRun), data))
    {
      ghost var run0, sent, owed := escaper.zeroRun, queue.passedOn, queue.owed;
      ghost var received, open := queue.received, queue.open;
      var k := 0;
      assert data[..0] == [];
      assert sent + [] == sent;
      while k < |data|
        invariant 0 <= k <= |data|
        invariant queue.Valid()
        invariant escaper.zeroRun == WriteRun(escaped, run0, data[..k])
        invariant queue.passedOn == sent + WriteImages(escaped, run0, data[..k])
        invariant queue.received == received && queue.open == open
        invariant queue.owed == owed - k
        decreases |data| - k
      {
        queue.OwedByFirst();
        if |queue.pes| == 0 || queue.pes[0].bytes == 0 {
          assert false;
        }
        var n := if |data| - k < queue.pes[0].bytes then |data| - k else queue.pes[0].bytes;
        ghost var images := WriteImages(escaped, escaper.zeroRun, data[k..k + n]);
        WritePiece(data[k..k + n], escaped);
        WriteExtend(escaped, run0, data, k, n);
        ConcatAssociates(sent, WriteImages(escaped, run0, data[..k]), images);
        k := k + n;
      }
      assert data[..k] == data;
    }

    // ---- NAL data ----

    /** copy(t.pattern[t.patternLen:limit], data) */
    method Fill(data: seq<byte>, limit: nat) returns (n: nat)
      requires patternLen <= limit <= pattern.Length
      modifies this`patternLen, pattern
      ensures n == (if limit - old(patternLen) < |data| then limit - old(patternLen) else |data|)
      ensures patternLen == old(patternLen) + n
      ensures pattern[..patternLen] == old(pattern[..patternLen]) + data[..n]
    {
      n := if limit - patternLen < |data| then limit - patternLen else |data|;
      forall i | 0 <= i < n {
        pattern[patternLen + i] := data[i];
      }
      patternLen := patternLen + n;
    }

    /** The probe is full: encrypt its island and send all 49 bytes. */
    method SealProbe()
      requires block != null && block.keys == cfg.keys && pattern.Length == PROBE_SIZE
      requires patternLen == PROBE_SIZE && !nalEncrypted
      requires queue.Valid() && queue.owed >= PROBE_SIZE
      modifies this`patternLen, this`nalEncrypted, this`skip, pattern, block, escaper, queue
      ensures queue.Valid() && patternLen == 0
      ensures State() == ProbeFull(cfg, old(State()), old(pattern[..])).core
      ensures Sends(ProbeFull(cfg, old(State()), old(pattern[..])).images)
    {
      ghost var probe := pattern[..];
      block.Reset();
      var ok := block.CryptBlocks(pattern, CLEAR_LEAD, CLEAR_LEAD + BLOCK_SIZE);
      CbcOne(cfg.keys, cfg.keys.iv, probe[CLEAR_LEAD..CLEAR_LEAD + BLOCK_SIZE]);
      Write(pattern[..], true);
      patternLen := 0;
      nalEncrypted := true;
      skip := PATTERN_SKIP - 1;
      assert pattern[..0] == [];
    }

    /** A byte follows the pending block: encrypt and send the block. */
    method SealBlock()
      requires block != null && block.keys == cfg.keys && block.mode.Some? && pattern.Length == PROBE_SIZE
      requires patternLen == BLOCK_SIZE && nalEncrypted
      requires queue.Valid() && queue.owed >= BLOCK_SIZE
      modifies this`patternLen, this`skip, pattern, block, escaper, queue
      ensures queue.Valid() && patternLen == 0
      ensures State() == BlockFull(cfg, old(State())).core
      ensures Sends(BlockFull(cfg, old(State())).images)
    {
      ghost var plain, chain := pattern[..BLOCK_SIZE], block.mode.value;
      assert pattern[..][0..BLOCK_SIZE] == plain == pattern[0..BLOCK_SIZE];
      var ok := block.CryptBlocks(pattern, 0, BLOCK_SIZE);
      CbcOne(cfg.keys, chain, plain);
      assert pattern[..BLOCK_SIZE] == Seal(cfg.keys, chain, plain);
      Write(pattern[..BLOCK_SIZE], true);
      patternLen := 0;
      skip := PATTERN_SKIP;
      assert pattern[..0] == [];
    }

    /** A clear stretch is written as one slice. */
    method WriteClear(data: seq<byte>) returns (rest: seq<byte>, ghost images: Images)
      requires Ready() && nalState == Protected && nalEncrypted && skip > 0 && data != []
      requires queue.owed >= patternLen + |data|
      modifies this`skip, escaper, queue
      ensures Ready() && |rest| < |data| && patternLen + |rest| + |images| == patternLen + |data|
      ensures Continues(cfg, old(State()), data, images, State(), rest) && Sends(images)
    {
      var n := if |data| < skip then |data| else skip;
      ClearContinues(cfg, State(), data, n);
      images := EscImages(escaper.zeroRun, data[..n]);
      Write(data[..n], true);
      skip := skip - n;
      rest := data[n..];
    }

    /** At most one partial block is retained. */
    method KeepPartial(data: seq<byte>) returns (rest: seq<byte>)
      requires Ready() && nalState == Protected && nalEncrypted && skip == 0 && patternLen < BLOCK_SIZE && data != []
      modifies this`patternLen, pattern
      ensures Ready() && |rest| < |data| && patternLen + |rest| == old(patternLen) + |data|
      ensures Continues(cfg, old(State()), data, [], State(), rest)
    {
      var n := Fill(data, BLOCK_SIZE);
      PartialContinues(cfg, old(State()), data, n);
      rest := data[n..];
    }

    /** One round of the loop of writeNAL. */
    method PatternStep(data: seq<byte>) returns (rest: seq<byte>, ghost images: Images)
      requires Ready() && nalState == Protected && nalEncrypted && data != []
      requires queue.owed >= patternLen + |data|
      modifies this`patternLen, this`skip, pattern, block, escaper, queue
      ensures Ready() && patternLen + |rest| + |images| == old(patternLen) + |data|
      ensures |rest| < |data| || (rest == data && patternLen < old(patternLen))
      ensures Continues(cfg, old(State()), data, images, State(), rest) && Sends(images)
    {
      if skip > 0 {
        rest, images := WriteClear(data);
      } else if patternLen == BLOCK_SIZE {
        BlockContinues(cfg, State(), data);
        images := BlockFull(cfg, State()).images;
        rest := data;
        SealBlock();
      } else {
        images := [];
        rest := KeepPartial(data);
      }
    }

    /** The loop of writeNAL after the probe: clear stretches, blocks, a retained partial block. */
    method WritePattern(data: seq<byte>)
      requires Ready() && nalState == Protected && nalEncrypted
      requires queue.owed >= patternLen + |data|
      modifies this`patternLen, this`skip, pattern, block, escaper, queue
      ensures Ready()
      ensures State() == NalBytes(cfg, old(State()), data).core
      ensures Sends(NalBytes(cfg, old(State()), data).images)
    {
      ghost var c0, images: Images := State(), [];
      var rest := data;
      ContinuesInit(cfg, c0, data);
      while |rest| > 0
        invariant Ready() && nalState == Protected && nalEncrypted
        invariant Continues(cfg, c0, data, images, State(), rest) && Sends(images)
        invariant queue.owed >= patternLen + |rest|
        decreases |rest|, patternLen
      {
        ghost var c, was, more := State(), rest, [];
        rest, more := PatternStep(rest);
        ContinuesFurther(cfg, c0, data, images, c, was, more, State(), rest);
        images := images + more;
      }
      ContinuesDone(cfg, c0, data, images, State());
    }

    /** writeNAL: the first byte decides whether the NAL unit is protected. */
    method WriteNAL(data: seq<byte>) returns (err: Option<Failure>)
      requires Ready() && data != []
      requires queue.owed >= patternLen + |data|
      modifies this`nalState, this`nalEncrypted, this`patternLen, this`skip, pattern, block, escaper, queue
      ensures err == if old(nalState) == NoNal then Some(BadStream(BytesBeforeStartCode)) else None
      ensures err == None ==> Ready()
      ensures err == None ==> State() == NalBytes(cfg, old(State()), data).core
      ensures err == None ==> Sends(NalBytes(cfg, old(State()), data).images)
    {
      if nalState == NoNal {
        return Some(BadStream(BytesBeforeStartCode));
      }
      ghost var c := State();
      if nalState == Header {
        HeaderStretch(cfg, c, data);
        nalState := if block != null && IsSlice(data[0]) then Protected else Passthrough;
        assert State() == Classify(cfg, c, data[0]);
      }
      if nalState == Passthrough {
        PassStretch(cfg, State(), data);
        Write(data, false);
        return None;
      }
      if nalEncrypted {
        WritePattern(data);
      } else {
        WriteProbe(data);
      }
      return None;
    }

    /** Nothing of a NAL unit is sent before its 49th byte is known. */
    method WriteProbe(data: seq<byte>)
      requires Ready() && nalState == Protected && !nalEncrypted
      requires queue.owed >= patternLen + |data|
      modifies this`nalEncrypted, this`patternLen, this`skip, pattern, block, escaper, queue
      ensures Ready()
      ensures State() == NalBytes(cfg, old(State()), data).core
      ensures Sends(NalBytes(cfg, old(State()), data).images)
    {
      ghost var c, sent := State(), queue.passedOn;
      var n := Fill(data, PROBE_SIZE);
      if patternLen < PROBE_SIZE {
        assert data[..n] == data;
        ProbeStretch(cfg, c, data);
        return;
      }
      assert pattern[..] == pattern[..patternLen];
      ProbeContinues(cfg, c, data, n);
      ghost var o := ProbeFull(cfg, c, pattern[..]);
      assert State() == c.(pending := pattern[..]);
      SealProbe();
      ghost var d := State();
      assert d == o.core;
      WritePattern(data[n..]);
      ghost var p := NalBytes(cfg, d, data[n..]);
      ContinuesSum(cfg, c, data, o.images, d, data[n..]);
      ConcatAssociates(sent, o.images, p.images);
    }

    /** finishNAL: the last island, or a short probe, is sent as it is. */
    method FinishNAL() returns (err: Option<Failure>)
      requires Ready() && nalState != NoNal && queue.owed >= patternLen
      modifies this`nalState, this`patternLen, escaper, queue
      ensures err == if old(nalState) == Header then Some(BadStream(StartCodeWithoutHeader)) else None
      ensures err == None ==> Ready()
      ensures err == None ==> State() == FinishNal(old(State())).core
      ensures err == None ==> Sends(FinishNal(old(State())).images)
    {
      if nalState == Header {
        return Some(BadStream(StartCodeWithoutHeader));
      }
      if nalState == Protected {
        Write(pattern[..patternLen], nalEncrypted);
        patternLen := 0;
      } else {
        assert queue.passedOn + [] == queue.passedOn;
      }
      nalState := NoNal;
      assert pattern[..0] == [];
      return None;
    }

    method BeginNAL()
      requires Ready()
      modifies this`nalState, this`nalEncrypted, this`patternLen, this`skip, escaper
      ensures Ready() && State() == Begin(old(State()).(zeroRun := 0)).(zeroRun := old(zeroRun))
    {
      nalState, nalEncrypted, patternLen, skip := Header, false, 0, 0;
      escaper.Reset();
      assert pattern[..0] == [];
    }

    /** One slice of writeNALZeros. */
    method WriteSomeZeros(left: nat) returns (size: nat, ghost images: Images)
      requires Ready() && nalState != NoNal && left > 0 && queue.owed >= patternLen + left
      modifies this`nalState, this`nalEncrypted, this`patternLen, this`skip, pattern, block, escaper, queue
      ensures Ready() && nalState != NoNal && 0 < size <= left && queue.owed >= patternLen + (left - size)
      ensures Continues(cfg, old(State()), Zeros(left), images, State(), Zeros(left - size)) && Sends(images)
    {
      size := if left < 256 then left else 256;
      ZerosContinue(cfg, State(), left, size);
      images := NalBytes(cfg, State(), Zeros(size)).images;
      var err := WriteNAL(Zeros(size));
    }

    /** writeNALZeros(t.zeroRun), in slices of at most 256 zeros. */
    method WriteNALZeros(n: nat)
      requires Ready() && nalState != NoNal && n > 0
      requires queue.owed >= patternLen + n
      modifies this`nalState, this`nalEncrypted, this`patternLen, this`skip, pattern, block, escaper, queue
      ensures Ready()
      ensures State() == NalBytes(cfg, old(State()), Zeros(n)).core
      ensures Sends(NalBytes(cfg, old(State()), Zeros(n)).images)
    {
      ghost var c := State();
      var left := n;
      ghost var images: Images := [];
      ContinuesInit(cfg, c, Zeros(n));
      while left > 0
        invariant 0 <= left <= n && Ready() && nalState != NoNal
        invariant Continues(cfg, c, Zeros(n), images, State(), Zeros(left)) && Sends(images)
        invariant queue.owed >= patternLen + left
        decreases left
      {
        ghost var d, more := State(), images;
        var size;
        size, more := WriteSomeZeros(left);
        ContinuesFurther(cfg, c, Zeros(n), images, d, Zeros(left), more, State(), Zeros(left - size));
        SendsSum(old(queue.passedOn), images, more);
        images := images + more;
        left := left - size;
      }
      ContinuesDone(cfg, c, Zeros(n), images, State());
    }

    /** writeZeros(n, false), in slices of at most 256 zeros. */
    method WriteZeros(n: nat)
      requires queue.Valid() && queue.owed >= n
      modifies queue, escaper
      ensures queue.Valid() && escaper.zeroRun == old(escaper.zeroRun)
      ensures Sends(Singles(Zeros(n)))
    {
      ghost var sent := queue.passedOn;
      var left := n;
      assert Singles(Zeros(0)) == [];
      assert sent + [] == sent;
      while left > 0
        invariant 0 <= left <= n
        invariant queue.Valid() && escaper.zeroRun == old(escaper.zeroRun)
        invariant Sends(Singles(Zeros(n - left)))
        decreases left
      {
        var size := if left < 256 then left else 256;
        Write(Zeros(size), false);
        ZerosConcat(n - left, size);
        SinglesConcat(Zeros(n - left), Zeros(size));
        ConcatAssociates(sent, Singles(Zeros(n - left)), Singles(Zeros(size)));
        left := left - size;
      }
    }

    // ---- the elementary stream ----

    /** Finish the current NAL unit, if there is one. */
    method FinishOpenNAL() returns (err: Option<Failure>)
      requires Ready() && queue.owed >= patternLen
      modifies this`nalState, this`patternLen, escaper, queue
      ensures err == if old(nalState) == Header then Some(BadStream(StartCodeWithoutHeader)) else None
      ensures err == None ==> Ready()
      ensures err == None ==> State() == FinishNal(old(State())).core
      ensures err == None ==> Sends(FinishNal(old(State())).images)
    {
      if nalState != NoNal {
        err := FinishNAL();
        return;
      }
      assert queue.passedOn + [] == queue.passedOn;
      assert pattern[..0] == [];
      return None;
    }

    /** The held zeros and the rest of a start code, unchanged. */
    method SendFraming(framing: seq<byte>)
      requires Ready() && |framing| >= 1 && framing == Zeros(|framing| - 1) + [1]
      requires queue.owed >= zeroRun + |framing|
      modifies this`zeroRun, escaper, queue
      ensures Ready() && State() == old(State()).(zeroRun := 0)
      ensures Sends(Singles(Zeros(old(zeroRun) + |framing| - 1) + [1]))
    {
      ghost var sent := queue.passedOn;
      FramingImages(sent, zeroRun, framing);
      WriteZeros(zeroRun);
      zeroRun := 0;
      Write(framing, false);
    }

    /** An Annex B start code: finish the old NAL unit, send the framing, begin a new one. */
    method StartCode(framing: seq<byte>) returns (err: Option<Failure>, ghost images: Images)
      requires Ready() && |framing| >= 1 && framing == Zeros(|framing| - 1) + [1]
      requires queue.owed >= patternLen + zeroRun + |framing|
      modifies this`nalState, this`zeroRun, this`nalEncrypted, this`patternLen, this`skip, escaper, queue
      ensures err == if old(nalState) == Header then Some(BadStream(StartCodeWithoutHeader)) else None
      ensures err == None ==> Ready() && State() == Begin(FinishNal(old(State())).core)
      ensures err == None ==> images == StartCodeImages(old(State()), |framing| - 1) && Sends(images)
    {
      ghost var last, copied, sent := FinishNal(State()).images, Singles(Zeros(zeroRun + |framing| - 1) + [1]),
        queue.passedOn;
      images := last + copied;
      err := FinishOpenNAL();
      if err != None {
        return;
      }
      SendFraming(framing);
      BeginNAL();
      ConcatAssociates(sent, last, copied);
    }

    /** NAL data up to position n. */
    method FeedData(payload: seq<byte>, n: nat) returns (err: Option<Failure>, ghost images: Images)
      requires Ready() && zeroRun == 0 && queue.owed == Held(State()) + |payload|
      requires 0 < n <= |payload| && payload[n - 1] != 0 && NoStartCode(payload[..n])
      modifies this`nalState, this`zeroRun, this`nalEncrypted, this`patternLen, this`skip, pattern, block, escaper,
        queue
      ensures err.Some? ==> err.value.BadStream? && Refuses(cfg, old(State()), payload, err.value.error)
      ensures err == None ==> Ready() && zeroRun == 0
      ensures err == None ==> Feeds(cfg, old(State()), payload, images, State(), payload[n..]) && Sends(images)
    {
      DataFeed(cfg, State(), payload, n);
      images := if nalState == NoNal then [] else NalBytes(cfg, State(), payload[..n]).images;
      err := WriteNAL(payload[..n]);
    }

    /** n zeros and a 01, which with the zeros held make a start code. */
    method FeedStartCode(payload: seq<byte>, n: nat) returns (err: Option<Failure>, ghost images: Images)
      requires Ready() && queue.owed == Held(State()) + |payload|
      requires n + 1 <= |payload| && payload[..n + 1] == Zeros(n) + [1] && zeroRun + n >= 2
      modifies this`nalState, this`zeroRun, this`nalEncrypted, this`patternLen, this`skip, pattern, block, escaper,
        queue
      ensures err.Some? ==> err.value.BadStream? && Refuses(cfg, old(State()), payload, err.value.error)
      ensures err == None ==> Ready() && zeroRun == 0
      ensures err == None ==> Feeds(cfg, old(State()), payload, images, State(), payload[n + 1..]) && Sends(images)
    {
      StartCodeFeed(cfg, State(), payload, n);
      err, images := StartCode(payload[..n + 1]);
    }

    /** The zeros that were held are NAL data after all. */
    method FeedHeldZeros(payload: seq<byte>) returns (err: Option<Failure>, ghost images: Images)
      requires Ready() && zeroRun > 0 && queue.owed == Held(State()) + |payload|
      requires payload != [] && payload[0] != 0 && !(zeroRun >= 2 && payload[0] == 1)
      modifies this`nalState, this`zeroRun, this`nalEncrypted, this`patternLen, this`skip, pattern, block, escaper,
        queue
      ensures err.Some? ==> err.value.BadStream? && Refuses(cfg, old(State()), payload, err.value.error)
      ensures err == None ==> Ready() && zeroRun == 0
      ensures err == None ==> Feeds(cfg, old(State()), payload, images, State(), payload) && Sends(images)
    {
      HeldZerosAreData(cfg, State(), payload);
      if nalState == NoNal {
        return Some(BadStream(BytesBeforeStartCode)), [];
      }
      err, images := None, NalBytes(cfg, State().(zeroRun := 0), Zeros(zeroRun)).images;
      WriteHeldZeros();
    }

    /** Zeros are only counted. */
    method FeedZeros(payload: seq<byte>, n: nat)
      requires Ready() && n <= |payload| && payload[..n] == Zeros(n)
      modifies this`zeroRun
      ensures Ready() && zeroRun == old(zeroRun) + n
      ensures Feeds(cfg, old(State()), payload, [], State(), payload[n..]) && Sends([])
    {
      hide Feeds;
      ZerosFeed(cfg, State(), payload, n);
      assert queue.passedOn + [] == queue.passedOn;
      HoldZeros(n);
    }

    method HoldZeros(n: nat)
      requires Ready()
      modifies this`zeroRun
      ensures Ready() && State() == old(State()).(zeroRun := old(zeroRun) + n)
    {
      zeroRun := zeroRun + n;
    }

    /** The held zeros re-enter writeNAL. */
    method WriteHeldZeros()
      requires Ready() && zeroRun > 0 && nalState != NoNal && queue.owed >= patternLen + zeroRun
      modifies this`nalState, this`zeroRun, this`nalEncrypted, this`patternLen, this`skip, pattern, block, escaper,
        queue
      ensures Ready()
      ensures State() == NalBytes(cfg, old(State()).(zeroRun := 0), Zeros(old(zeroRun))).core
      ensures Sends(NalBytes(cfg, old(State()).(zeroRun := 0), Zeros(old(zeroRun))).images)
    {
      RunAside(cfg, State(), Zeros(zeroRun));
      WriteNALZeros(zeroRun);
      zeroRun := 0;
    }

    /** The first part of PESPayload: decide what a zero run held from earlier calls is. */
    method ResolveZeroRun(payload: seq<byte>) returns (rest: seq<byte>, err: Option<Failure>, ghost images: Images)
      requires Ready() && zeroRun > 0 && queue.owed == Held(State()) + |payload|
      modifies this`nalState, this`zeroRun, this`nalEncrypted, this`patternLen, this`skip, pattern, block, escaper,
        queue
      ensures err.Some? ==> err.value.BadStream? && Refuses(cfg, old(State()), payload, err.value.error)
      ensures err == None ==> Ready() && (rest == [] || zeroRun == 0)
      ensures err == None ==> Feeds(cfg, old(State()), payload, images, State(), rest) && Sends(images)
    {
      err, images := None, [];
      var n := CountZeros(payload);
      FeedZeros(payload, n);
      rest := payload[n..];
      if |rest| == 0 {
        return;
      }
      ghost var c, d, was, more := old(State()), State(), rest, [];
      if rest[0] == 1 && zeroRun >= 2 {
        assert rest[..1] == Zeros(0) + [1];
        err, more := FeedStartCode(rest, 0);
        rest := rest[1..];
      } else {
        err, more := FeedHeldZeros(rest);
      }
      if err != None {
        RefusesFirst(cfg, c, payload, [], d, was, err.value.error);
        return;
      }
      FeedsFurther(cfg, c, payload, [], d, was, more, State(), rest);
      assert [] + more == more;
      SendsSum(old(queue.passedOn), [], more);
      images := more;
    }

    /** After the NAL data come zeros: `size` of them, and then a 01 or the end of the call. */
    method FeedBoundary(payload: seq<byte>, size: nat) returns (rest: seq<byte>, err: Option<Failure>,
      ghost images: Images)
      requires Ready() && zeroRun == 0 && queue.owed == Held(State()) + |payload|
      requires size <= |payload| && payload[..size] == Zeros(size)
      requires size < |payload| ==> size >= 2 && payload[size] == 1
      modifies this`nalState, this`zeroRun, this`nalEncrypted, this`patternLen, this`skip, pattern, block, escaper,
        queue
      ensures err.Some? ==> err.value.BadStream? && Refuses(cfg, old(State()), payload, err.value.error)
      ensures err == None ==> Ready() && (rest == [] || zeroRun == 0)
      ensures err == None ==> |rest| <= |payload| && (payload != [] ==> |rest| < |payload|)
      ensures err == None ==> Feeds(cfg, old(State()), payload, images, State(), rest) && Sends(images)
    {
      if size == |payload| {
        FeedZeros(payload, size);
        return [], None, [];
      }
      assert payload[..size + 1] == Zeros(size) + [1];
      err, images := FeedStartCode(payload, size);
      rest := payload[size + 1..];
    }

    /** The loop of PESPayload, up to and including the next start code. */
    method ConsumeUnit(payload: seq<byte>) returns (rest: seq<byte>, err: Option<Failure>, ghost images: Images)
      requires Ready() && zeroRun == 0 && payload != [] && queue.owed == Held(State()) + |payload|
      modifies this`nalState, this`zeroRun, this`nalEncrypted, this`patternLen, this`skip, pattern, block, escaper,
        queue
      ensures err.Some? ==> err.value.BadStream? && Refuses(cfg, old(State()), payload, err.value.error)
      ensures err == None ==> Ready() && (rest == [] || zeroRun == 0) && |rest| < |payload|
      ensures err == None ==> Feeds(cfg, old(State()), payload, images, State(), rest) && Sends(images)
    {
      var startCode := IndexStartCode(payload);
      var end := if startCode < 0 then |payload| else startCode + 2;
      var start := TrimZeros(payload, end);
      UnitParts(payload, start, end, startCode);
      if start == 0 {
        assert payload[0..] == payload;
        rest, err, images := FeedBoundary(payload, end);
        return;
      }
      rest := payload[start..];
      err, images := FeedData(payload, start);
      if err != None {
        return;
      }
      ghost var c, d, was, more := old(State()), State(), payload[start..], [];
      rest, err, more := FeedBoundary(payload[start..], end - start);
      if err != None {
        RefusesFirst(cfg, c, payload, images, d, was, err.value.error);
        return;
      }
      FeedsFurther(cfg, c, payload, images, d, was, more, State(), rest);
      SendsSum(old(queue.passedOn), images, more);
      images := images + more;
    }

    // ---- the PESHandler methods ----

    method PESHeader(header: seq<byte>) returns (err: Option<Failure>)
      requires Valid()
      modifies this, queue
      ensures Valid() && stream == old(stream)
      ensures err == if old(inputPESOpen) then Some(PreviousPESOpen) else if |header| < 6 then
        Some(HeaderTooShort) else None
      ensures err == None ==>
        inputPESOpen && queue.received == old(queue.received) + [Q.Input(ClearLength(header), 0, false)]
      ensures err != None ==> inputPESOpen == old(inputPESOpen) && queue.received == old(queue.received)
    {
      assert UnfoldValid(0);
      if inputPESOpen {
        return Some(PreviousPESOpen);
      }
      if |header| < 6 {
        return Some(HeaderTooShort);
      }
      queue.Open(ClearLength(header), true);
      inputPESOpen := true;
      return None;
    }

    /** Refused exactly when no PES is open or the stream, so far, breaks Annex B. */
    method PESPayload(payload: seq<byte>) returns (err: Option<Failure>)
      requires Valid()
      modifies this, pattern, block, escaper, queue
      ensures !old(inputPESOpen) ==> err == Some(PayloadOutsidePES)
      ensures old(inputPESOpen) ==>
        match FeedAll(cfg, Init, old(stream) + payload)
        case Failed(e) => err == Some(BadStream(e))
        case Done(_) => err == None
      ensures err == None ==> Valid() && inputPESOpen && stream == old(stream) + payload && old(queue.received) != []
      ensures err == None ==> var was := Q.Last(old(queue.received));
        queue.received == Q.ReplaceLast(old(queue.received), was.(size := was.size + |payload|))
    {
      if !inputPESOpen {
        return Some(PayloadOutsidePES);
      }
      assert UnfoldValid(0);
      err := Absorb(payload);
    }

    method Absorb(payload: seq<byte>) returns (err: Option<Failure>)
      requires Inv() && inputPESOpen
      modifies this, pattern, block, escaper, queue
      ensures match FeedAll(cfg, Init, old(stream) + payload)
        case Failed(e) => err == Some(BadStream(e))
        case Done(_) => err == None
      ensures err == None ==> Inv() && inputPESOpen && stream == old(stream) + payload && old(queue.received) != []
      ensures err == None ==> var was := Q.Last(old(queue.received));
        queue.received == Q.ReplaceLast(old(queue.received), was.(size := was.size + |payload|))
    {
      queue.Charge(|payload|);
      err := AbsorbCharged(payload);
    }

    /** The bytes have been charged to their PES; now they are consumed. */
    method AbsorbCharged(payload: seq<byte>) returns (err: Option<Failure>)
      requires Ready() && inputPESOpen && queue.open && queue.owed == Held(State()) + |payload|
      requires Feeds(cfg, Init, stream, queue.passedOn, State(), [])
      modifies this, pattern, block, escaper, queue
      ensures match FeedAll(cfg, Init, old(stream) + payload)
        case Failed(e) => err == Some(BadStream(e))
        case Done(_) => err == None
      ensures err == None ==> Inv() && inputPESOpen && stream == old(stream) + payload
      ensures err == None ==> queue.received == old(queue.received)
    {
      StreamSoFar(cfg, stream, queue.passedOn, State(), payload);
      err := Consume(payload);
      if err == None {
        stream := stream + payload;
      }
    }

    /** The body of PESPayload, after the bytes have been charged to their PES. */
    method Consume(payload: seq<byte>) returns (err: Option<Failure>)
      requires Ready() && queue.owed == Held(State()) + |payload|
      modifies this`nalState, this`zeroRun, this`nalEncrypted, this`patternLen, this`skip, pattern, block, escaper,
        queue
      ensures match FeedAll(cfg, old(State()), payload)
        case Failed(e) => err == Some(BadStream(e))
        case Done(o) => err == None && Ready() && State() == o.core && Sends(o.images)
    {
      ghost var c, images: Images := State(), [];
      var rest := payload;
      err := None;
      FeedsInit(cfg, c, payload);
      if zeroRun > 0 {
        rest, err, images := ResolveZeroRun(payload);
      }
      while |rest| > 0 && err == None
        invariant err == None ==> Ready() && (rest == [] || zeroRun == 0)
        invariant err == None ==> Feeds(cfg, c, payload, images, State(), rest) && Sends(images)
        invariant err.Some? ==> err.value.BadStream? && Refuses(cfg, c, payload, err.value.error)
        decreases err == None, |rest|
      {
        ghost var d, was, more := State(), rest, [];
        rest, err, more := ConsumeUnit(rest);
        if err != None {
          RefusesFirst(cfg, c, payload, images, d, was, err.value.error);
        } else {
          FeedsFurther(cfg, c, payload, images, d, was, more, State(), rest);
          SendsSum(old(queue.passedOn), images, more);
          images := images + more;
        }
      }
      Outcome(cfg, c, payload, err, images, if err == None then State() else c);
    }

    method PESEnd() returns (err: Option<Failure>)
      requires Valid()
      modifies this, queue
      ensures Valid() && stream == old(stream) && !inputPESOpen
      ensures err == if old(inputPESOpen) then None else Some(NoOpenPES)
      ensures err == None ==> old(queue.received) != []
      ensures err == None ==> var was := Q.Last(old(queue.received));
        queue.received == Q.ReplaceLast(old(queue.received), was.(ended := true))
      ensures err != None ==> queue.received == old(queue.received)
    {
      assert UnfoldValid(0);
      if !inputPESOpen {
        return Some(NoOpenPES);
      }
      queue.Close();
      inputPESOpen := false;
      return None;
    }

    /** What has been received so far has been taken, and its images have been passed on. */
    lemma Taken()
      requires Valid()
      ensures FeedAll(cfg, Init, stream).Done? && FeedAll(cfg, Init, stream).out.images == queue.passedOn
    {
      assert UnfoldValid(0);
      FeedsDone(cfg, Init, stream, queue.passedOn, State());
    }

    /** What holds of the queue between calls. */
    lemma QueueIsValid()
      requires Valid()
      ensures queue.Valid() && inputPESOpen == queue.open
    {
      assert UnfoldValid(0);
    }

    ghost method Observe()
      requires Valid()
      modifies queue.observer
      ensures Valid() && queue.observer.seen == queue.events
    {
      assert UnfoldValid(0);
      queue.Observe();
    }

    /** Succeeds exactly when no PES is open and the stream is a proper byte stream;
      * then nothing is left in the queue and every PES has been sent, with the images
      * of its own source bytes. */
    method Flush() returns (err: Option<Failure>)
      requires Valid()
      modifies this, pattern, block, escaper, queue
      ensures err == None <==> !old(inputPESOpen) && Split(old(stream)).Some?
      ensures err == None ==> queue.Valid() && queue.received == old(queue.received) && queue.pes == []
      ensures err == None ==>
        var images := StreamImages(cfg, Split(old(stream)).value);
        |images| == Q.TotalSize(queue.received) && Q.Group(queue.events) == Some(Q.Share(queue.received, images))
    {
      assert UnfoldValid(0);
      if inputPESOpen {
        return Some(PESStillOpen);
      }
      RunIsSplit(cfg, stream);
      FeedsDone(cfg, Init, stream, queue.passedOn, State());
      ghost var c, sent := State(), queue.passedOn;
      err := FinishOpenNAL();
      if err != None {
        return;
      }
      WriteZeros(zeroRun);
      zeroRun := 0;
      queue.Settle();
      ConcatAssociates(sent, FinishNal(c).images, Singles(Zeros(c.zeroRun)));
      queue.AllDelivered();
    }
  }

  /** What precedes the zeros before the next start code, and what follows. */
  lemma UnitParts(data: seq<byte>, start: nat, end: nat, startCode: int)
    requires start <= end <= |data| && data[start..end] == Zeros(end - start)
    requires start > 0 ==> data[start - 1] != 0
    requires if startCode < 0 then end == |data| && NoStartCode(data)
             else end == startCode + 2 && StartCodeAt(data, startCode) && forall j :: 0 <= j < startCode ==>
               !StartCodeAt(data, j)
    ensures NoStartCode(data[..start])
    ensures data[start..][..end - start] == Zeros(end - start)
    ensures end < |data| ==> end - start >= 2 && data[start..][end - start] == 1
  {
    PrefixNoStartCode(data, start, end);
    assert data[start..][..end - start] == data[start..end];
  }

  /** Where the stream stands, and what more of it will do. */
  lemma StreamSoFar(cfg: Config, stream: seq<byte>, sent: Images, c: Core, payload: seq<byte>)
    requires Feeds(cfg, Init, stream, sent, c, [])
    ensures match FeedAll(cfg, c, payload)
      case Failed(e) => FeedAll(cfg, Init, stream + payload) == Failed(e)
      case Done(o) =>
        FeedAll(cfg, Init, stream + payload).Done? &&
        Feeds(cfg, Init, stream + payload, sent + o.images, o.core, [])
  {
    FeedsDone(cfg, Init, stream, sent, c);
    FeedConcat(cfg, Init, stream, payload);
    var step := FeedAll(cfg, c, payload);
    if step.Done? {
      var all := stream + payload;
      assert all[..|all|] == all && all[|all|..] == [];
      FeedsPrefix(cfg, Init, all, |all|, Out(step.out.core, sent + step.out.images));
    }
  }

  /** Reading off the result when everything is consumed or the stream was refused. */
  lemma Outcome(cfg: Config, c: Core, data: seq<byte>, err: Option<Failure>, images: Images, d: Core)
    requires err.Some? ==> err.value.BadStream? && Refuses(cfg, c, data, err.value.error)
    requires err == None ==> Feeds(cfg, c, data, images, d, [])
    ensures CoreOk(c)
    ensures err.Some? ==> FeedAll(cfg, c, data) == Failed(err.value.error)
    ensures err == None ==> FeedAll(cfg, c, data) == Done(Out(d, images))
  {
    assert UnfoldStream(0);
    if err == None {
      FeedsDone(cfg, c, data, images, d);
    }
  }

  lemma SendsSum(sent: Images, a: Images, b: Images)
    ensures sent + a + b == sent + (a + b)
  {
  }

  /** A held zero run does not matter to NAL data. */
  lemma {:induction false} RunAside(cfg: Config, c: Core, data: seq<byte>)
    requires CoreOk(c) && c.mode != NoNal
    ensures var o := NalBytes(cfg, c.(zeroRun := 0), data);
      NalBytes(cfg, c, data) == Out(o.core.(zeroRun := c.zeroRun), o.images)
    decreases data
  {
    if data != [] {
      var o := NalByte(cfg, c, data[0]);
      assert NalByte(cfg, c.(zeroRun := 0), data[0]) == Out(o.core.(zeroRun := 0), o.images);
      RunAside(cfg, o.core, data[1..]);
    }
  }

  method CountZeros(data: seq<byte>) returns (n: nat)
    ensures n <= |data| && data[..n] == Zeros(n)
    ensures n < |data| ==> data[n] != 0
  {
    n := 0;
    while n < |data| && data[n] == 0
      invariant n <= |data| && data[..n] == Zeros(n)
    {
      n := n + 1;
    }
  }

  /** How far data[..end] reaches when its trailing zeros are left out. */
  method TrimZeros(data: seq<byte>, end: nat) returns (n: nat)
    requires end <= |data|
    ensures n <= end && data[n..end] == Zeros(end - n)
    ensures n > 0 ==> data[n - 1] != 0
  {
    n := end;
    while n > 0 && data[n - 1] == 0
      invariant n <= end && data[n..end] == Zeros(end - n)
    {
      assert data[n - 1..end] == [data[n - 1]] + data[n..end];
      n := n - 1;
    }
  }

  /** bytes.Index(data, annexBStartCode) */
  method IndexStartCode(data: seq<byte>) returns (i: int)
    ensures i < 0 ==> NoStartCode(data)
    ensures i >= 0 ==> StartCodeAt(data, i) && forall j :: 0 <= j < i ==> !StartCodeAt(data, j)
  {
    i := 0;
    while i + 2 < |data|
      invariant 0 <= i
      invariant forall j :: 0 <= j < i ==> !StartCodeAt(data, j)
    {
      if data[i] == 0 && data[i + 1] == 0 && data[i + 2] == 1 {
        return;
      }
      i := i + 1;
    }
    i := -1;
  }

  lemma PrefixNoStartCode(data: seq<byte>, n: nat, end: nat)
    requires n <= end <= |data|
    requires forall j :: 0 <= j && j + 2 < end ==> !StartCodeAt(data, j)
    ensures NoStartCode(data[..n])
  {
    var head := data[..n];
    forall j ensures !StartCodeAt(head, j) {
      if 0 <= j && j + 2 < n {
        assert !StartCodeAt(data, j);
      }
    }
  }

  lemma FramingImages(sent: Images, zeros: nat, framing: seq<byte>)
    requires |framing| >= 1 && framing == Zeros(|framing| - 1) + [1]
    ensures sent + Singles(Zeros(zeros)) + Singles(framing) == sent + Singles(Zeros(zeros + |framing| - 1) + [1])
  {
    assert Zeros(zeros) + framing == Zeros(zeros + |framing| - 1) + [1];
    SinglesConcat(Zeros(zeros), framing);
  }
}
