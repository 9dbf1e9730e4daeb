/** Facts that join the stretches of AvcStretches to the calls the transformer
  * makes: what is left to consume after each of them.
  */
module AvcFeeds {
  import opened Bytes
  import opened Escaper
  import opened AnnexB
  import opened AvcCore
  import opened AvcStretches

  // The two relations below stay folded except where these are mentioned.
  ghost predicate UnfoldNal(k: int) {
    true
  }

  ghost predicate UnfoldStream(k: int) {
    true
  }

  // ---- inside a NAL unit ----

  lemma NalCut(cfg: Config, c: Core, data: seq<byte>, n: nat)
    requires CoreOk(c) && c.mode != NoNal && n <= |data|
    ensures var o := NalBytes(cfg, c, data[..n]);
      var p := NalBytes(cfg, o.core, data[n..]);
      NalBytes(cfg, c, data) == Out(p.core, o.images + p.images)
  {
    assert data == data[..n] + data[n..];
    NalConcat(cfg, c, data[..n], data[n..]);
  }

  /** Consuming `data` from c comes down to sending `images` and consuming `rest` from d. */
  ghost predicate Continues(cfg: Config, c: Core, data: seq<byte>, images: Images, d: Core, rest: seq<byte>) {
    && CoreOk(c) && CoreOk(d) && c.mode != NoNal && d.mode != NoNal
    && forall k {:trigger UnfoldNal(k)} :: UnfoldNal(k) ==>
      && NalBytes(cfg, c, data).core == NalBytes(cfg, d, rest).core
      && NalBytes(cfg, c, data).images == images + NalBytes(cfg, d, rest).images
  }

  lemma ZerosContinue(cfg: Config, c: Core, n: nat, size: nat)
    requires CoreOk(c) && c.mode != NoNal && 0 < size <= n
    ensures var o := NalBytes(cfg, c, Zeros(size));
      Continues(cfg, c, Zeros(n), o.images, o.core, Zeros(n - size))
  {
    NalCut(cfg, c, Zeros(n), size);
    assert Zeros(n)[..size] == Zeros(size) && Zeros(n)[size..] == Zeros(n - size);
  }

  lemma ContinuesInit(cfg: Config, c: Core, data: seq<byte>)
    requires CoreOk(c) && c.mode != NoNal
    ensures Continues(cfg, c, data, [], c, data)
  {
    assert [] + NalBytes(cfg, c, data).images == NalBytes(cfg, c, data).images;
  }

  lemma ContinuesDone(cfg: Config, c: Core, data: seq<byte>, images: Images, d: Core)
    requires Continues(cfg, c, data, images, d, [])
    ensures NalBytes(cfg, c, data) == Out(d, images)
  {
    assert UnfoldNal(0);
    assert images + [] == images;
  }

  lemma ContinuesSum(cfg: Config, c: Core, data: seq<byte>, images: Images, d: Core, rest: seq<byte>)
    requires Continues(cfg, c, data, images, d, rest)
    ensures var p := NalBytes(cfg, d, rest);
      NalBytes(cfg, c, data) == Out(p.core, images + p.images)
  {
    assert UnfoldNal(0);
  }

  lemma ContinuesFurther(cfg: Config, c: Core, data: seq<byte>, images: Images, d: Core, rest: seq<byte>,
                         more: Images, e: Core, last: seq<byte>)
    requires Continues(cfg, c, data, images, d, rest) && Continues(cfg, d, rest, more, e, last)
    ensures Continues(cfg, c, data, images + more, e, last)
  {
    assert UnfoldNal(0);
    ConcatAssociates(images, more, NalBytes(cfg, e, last).images);
  }

  lemma ClearContinues(cfg: Config, c: Core, data: seq<byte>, n: nat)
    requires CoreOk(c) && c.mode == Protected && c.encrypted && n <= |data| && n <= c.skip
    ensures Continues(cfg, c, data, EscImages(c.run, data[..n]),
                      c.(skip := c.skip - n, run := EscRun(c.run, data[..n])), data[n..])
  {
    SkipStretch(cfg, c, data[..n]);
    NalCut(cfg, c, data, n);
  }

  lemma PartialContinues(cfg: Config, c: Core, data: seq<byte>, n: nat)
    requires CoreOk(c) && c.mode == Protected && c.encrypted && c.skip == 0
    requires n <= |data| && |c.pending| + n <= BLOCK_SIZE
    ensures Continues(cfg, c, data, [], c.(pending := c.pending + data[..n]), data[n..])
  {
    FillStretch(cfg, c, data[..n]);
    NalCut(cfg, c, data, n);
  }

  lemma BlockContinues(cfg: Config, c: Core, data: seq<byte>)
    requires CoreOk(c) && c.mode == Protected && c.encrypted && c.skip == 0
    requires |c.pending| == BLOCK_SIZE && data != []
    ensures Continues(cfg, c, data, BlockFull(cfg, c).images, BlockFull(cfg, c).core, data)
  {
    BlockStretch(cfg, c, data);
  }

  lemma ProbeContinues(cfg: Config, c: Core, data: seq<byte>, n: nat)
    requires CoreOk(c) && c.mode == Protected && !c.encrypted
    requires n <= |data| && |c.pending| + n == PROBE_SIZE
    ensures var o := ProbeFull(cfg, c, c.pending + data[..n]);
      Continues(cfg, c, data, o.images, o.core, data[n..])
  {
    ProbeComplete(cfg, c, data[..n]);
    NalCut(cfg, c, data, n);
  }

  // ---- in the elementary stream ----

  /** As Continues, for the elementary stream; a failure still to come is the same failure. */
  ghost predicate Feeds(cfg: Config, c: Core, data: seq<byte>, images: Images, d: Core, rest: seq<byte>) {
    && CoreOk(c) && CoreOk(d)
    && |images| + Held(d) + |rest| == Held(c) + |data|
    && forall k {:trigger UnfoldStream(k)} :: UnfoldStream(k) ==>
      FeedAll(cfg, c, data) ==
        match FeedAll(cfg, d, rest)
        case Failed(e) => Failed(e)
        case Done(p) => Done(Out(p.core, images + p.images))
  }

  lemma FeedsInit(cfg: Config, c: Core, data: seq<byte>)
    requires CoreOk(c)
    ensures Feeds(cfg, c, data, [], c, data)
  {
    var step := FeedAll(cfg, c, data);
    if step.Done? {
      assert [] + step.out.images == step.out.images;
    }
  }

  lemma FeedsDone(cfg: Config, c: Core, data: seq<byte>, images: Images, d: Core)
    requires Feeds(cfg, c, data, images, d, [])
    ensures FeedAll(cfg, c, data) == Done(Out(d, images))
  {
    assert UnfoldStream(0);
    assert images + [] == images;
  }

  lemma FeedsFailed(cfg: Config, c: Core, data: seq<byte>, images: Images, d: Core, rest: seq<byte>)
    requires Feeds(cfg, c, data, images, d, rest) && FeedAll(cfg, d, rest).Failed?
    ensures FeedAll(cfg, c, data) == FeedAll(cfg, d, rest)
  {
    assert UnfoldStream(0);
  }

  lemma FeedsFurther(cfg: Config, c: Core, data: seq<byte>, images: Images, d: Core, rest: seq<byte>,
                     more: Images, e: Core, last: seq<byte>)
    requires Feeds(cfg, c, data, images, d, rest) && Feeds(cfg, d, rest, more, e, last)
    ensures Feeds(cfg, c, data, images + more, e, last)
  {
    assert UnfoldStream(0);
    var step := FeedAll(cfg, e, last);
    if step.Done? {
      ConcatAssociates(images, more, step.out.images);
    }
  }

  /** Consuming the first n bytes. */
  lemma FeedsPrefix(cfg: Config, c: Core, data: seq<byte>, n: nat, o: Out)
    requires CoreOk(c) && n <= |data| && FeedAll(cfg, c, data[..n]) == Done(o)
    ensures Feeds(cfg, c, data, o.images, o.core, data[n..])
  {
    assert data == data[..n] + data[n..];
    FeedConcat(cfg, c, data[..n], data[n..]);
  }

  lemma PrefixRefused(cfg: Config, c: Core, data: seq<byte>, n: nat, error: AvcCore.Error)
    requires CoreOk(c) && n <= |data| && FeedAll(cfg, c, data[..n]) == Failed(error)
    ensures Refuses(cfg, c, data, error)
  {
    assert data == data[..n] + data[n..];
    FeedConcat(cfg, c, data[..n], data[n..]);
  }

  lemma ZerosFeed(cfg: Config, c: Core, data: seq<byte>, n: nat)
    requires CoreOk(c) && n <= |data| && data[..n] == Zeros(n)
    ensures Feeds(cfg, c, data, [], c.(zeroRun := c.zeroRun + n), data[n..])
  {
    ZeroStretch(cfg, c, n);
    FeedsPrefix(cfg, c, data, n, Out(c.(zeroRun := c.zeroRun + n), []));
  }

  /** What a start code sends: the end of the old NAL unit, and every zero of its own. */
  function StartCodeImages(c: Core, n: nat): Images
    requires CoreOk(c)
  {
    FinishNal(c).images + Singles(Zeros(c.zeroRun + n) + [1])
  }

  /** n zeros and a 01, after the zeros that are held. */
  lemma StartCodeFeed(cfg: Config, c: Core, data: seq<byte>, n: nat)
    requires CoreOk(c) && n + 1 <= |data| && data[..n + 1] == Zeros(n) + [1] && c.zeroRun + n >= 2
    ensures c.mode == Header ==> Refuses(cfg, c, data, StartCodeWithoutHeader)
    ensures c.mode != Header ==> Feeds(cfg, c, data, StartCodeImages(c, n), Begin(FinishNal(c).core), data[n + 1..])
  {
    StartCodeBytes(cfg, c, n, data[..n + 1]);
    if c.mode == Header {
      PrefixRefused(cfg, c, data, n + 1, StartCodeWithoutHeader);
    } else {
      FeedsPrefix(cfg, c, data, n + 1, Out(Begin(FinishNal(c).core), StartCodeImages(c, n)));
    }
  }

  lemma StartCodeBytes(cfg: Config, c: Core, n: nat, framing: seq<byte>)
    requires CoreOk(c) && framing == Zeros(n) + [1] && c.zeroRun + n >= 2
    ensures c.mode == Header ==> FeedAll(cfg, c, framing) == Failed(StartCodeWithoutHeader)
    ensures c.mode != Header ==>
      FeedAll(cfg, c, framing) == Done(Out(Begin(FinishNal(c).core), StartCodeImages(c, n)))
  {
    StartCodeStretch(cfg, c, n);
  }

  /** NAL data up to position n. */
  lemma DataFeed(cfg: Config, c: Core, data: seq<byte>, n: nat)
    requires CoreOk(c) && c.zeroRun == 0 && 0 < n <= |data| && data[n - 1] != 0 && NoStartCode(data[..n])
    ensures c.mode == NoNal ==> Refuses(cfg, c, data, BytesBeforeStartCode)
    ensures c.mode != NoNal ==>
      var o := NalBytes(cfg, c, data[..n]);
      Feeds(cfg, c, data, o.images, o.core, data[n..])
  {
    assert Zeros(0) + data[..n] == data[..n];
    assert c.(zeroRun := 0) == c;
    if c.mode == NoNal {
      StrayStretch(cfg, c, data[..n]);
      PrefixRefused(cfg, c, data, n, BytesBeforeStartCode);
    } else {
      DataStretch(cfg, c, data[..n]);
      FeedsPrefix(cfg, c, data, n, NalBytes(cfg, c, data[..n]));
    }
  }

  /** A held zero run that turns out to be NAL data. */
  lemma HeldZerosAreData(cfg: Config, c: Core, data: seq<byte>)
    requires CoreOk(c) && data != [] && data[0] != 0 && !(c.zeroRun >= 2 && data[0] == 1)
    ensures c.mode == NoNal ==> Refuses(cfg, c, data, BytesBeforeStartCode)
    ensures c.mode != NoNal ==>
      var o := NalBytes(cfg, c.(zeroRun := 0), Zeros(c.zeroRun));
      Feeds(cfg, c, data, o.images, o.core, data)
  {
    if c.mode != NoNal {
      var o := NalBytes(cfg, c.(zeroRun := 0), Zeros(c.zeroRun));
      HeldZerosByte(cfg, c, data[0]);
      var first := NalByte(cfg, o.core, data[0]);
      var more := FeedAll(cfg, first.core, data[1..]);
      if more.Done? {
        ConcatAssociates(o.images, first.images, more.out.images);
      }
    }
  }

  lemma HeldZerosByte(cfg: Config, c: Core, b: byte)
    requires CoreOk(c) && c.mode != NoNal && b != 0 && !(c.zeroRun >= 2 && b == 1)
    ensures var o := NalBytes(cfg, c.(zeroRun := 0), Zeros(c.zeroRun));
      o.core.mode != NoNal &&
      var first := NalByte(cfg, o.core, b);
      Feed(cfg, o.core, b) == Done(first) && Feed(cfg, c, b) == Done(Out(first.core, o.images + first.images))
  {
    var held := c.(zeroRun := 0);
    var o := NalBytes(cfg, held, Zeros(c.zeroRun));
    NalConcat(cfg, held, Zeros(c.zeroRun), [b]);
    assert Zeros(0) + [b] == [b] && o.core.(zeroRun := 0) == o.core;
    NalSingle(cfg, o.core, b);
  }

  /** `data` is refused with this error, from state c. */
  ghost predicate Refuses(cfg: Config, c: Core, data: seq<byte>, error: AvcCore.Error) {
    CoreOk(c) && forall k {:trigger UnfoldStream(k)} :: UnfoldStream(k) ==> FeedAll(cfg, c, data) == Failed(error)
  }

  lemma RefusesFirst(cfg: Config, c: Core, data: seq<byte>, images: Images, d: Core, rest: seq<byte>,
    error: AvcCore.Error)
    requires Feeds(cfg, c, data, images, d, rest) && Refuses(cfg, d, rest, error)
    ensures Refuses(cfg, c, data, error)
  {
    assert UnfoldStream(0);
    FeedsFailed(cfg, c, data, images, d, rest);
  }
}
