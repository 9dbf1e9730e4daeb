/** What AVC Sample-AES does to a stream: exactly which bytes are encrypted, that
  * the Annex B framing survives, and that the original stream can be recovered.
  */
module AvcTheorems {
  import opened Bytes
  import opened Cipher
  import opened Wrappers
  import opened Escaper
  import opened AnnexB
  import opened AvcCore

  const PERIOD := 160

  // ---- which bytes are encrypted ----

  /** A candidate block followed by at least one byte, and then the rest of the period. */
  lemma PatternPeriod(keys: Keys, chain: Block, rest: seq<byte>)
    requires |rest| > BLOCK_SIZE
    ensures var c := Seal(keys, chain, rest[..BLOCK_SIZE]);
      Pattern(keys, chain, rest) ==
        if |rest| <= PERIOD then c + rest[BLOCK_SIZE..]
        else c + rest[BLOCK_SIZE..PERIOD] + Pattern(keys, c, rest[PERIOD..])
  {
    if |rest| > PERIOD {
      var c, tail := Seal(keys, chain, rest[..BLOCK_SIZE]), rest[BLOCK_SIZE..];
      assert tail[..PATTERN_SKIP] == rest[BLOCK_SIZE..PERIOD] && tail[PATTERN_SKIP..] == rest[PERIOD..];
      ConcatAssociates(c, rest[BLOCK_SIZE..PERIOD], Pattern(keys, c, rest[PERIOD..]));
    }
  }

  /** The chaining value of block k: the previous ciphertext block, or the initial one. */
  function ChainAt(first: Block, cipher: seq<byte>, k: nat): Block
    requires PERIOD * k + BLOCK_SIZE <= |cipher|
  {
    if k == 0 then first else cipher[PERIOD * (k - 1)..PERIOD * (k - 1) + BLOCK_SIZE]
  }

  lemma SliceBehind<T>(s: seq<T>, cut: nat, lo: nat, n: nat)
    requires cut + lo + n <= |s|
    ensures s[cut + lo..cut + lo + n] == s[cut..][lo..lo + n]
  {
  }

  lemma {:induction false} PatternBlock(keys: Keys, chain: Block, rest: seq<byte>, k: nat)
    requires PERIOD * k + BLOCK_SIZE < |rest|
    ensures var e := Pattern(keys, chain, rest);
      e[PERIOD * k..PERIOD * k + BLOCK_SIZE]
      == Seal(keys, ChainAt(chain, e, k), rest[PERIOD * k..PERIOD * k + BLOCK_SIZE])
    decreases k
  {
    PatternPeriod(keys, chain, rest);
    var c := Seal(keys, chain, rest[..BLOCK_SIZE]);
    var e := Pattern(keys, chain, rest);
    assert e[..BLOCK_SIZE] == c;
    if k > 0 {
      var more, lo := rest[PERIOD..], PERIOD * (k - 1);
      var f := Pattern(keys, c, more);
      PatternBlock(keys, c, more, k - 1);
      assert e[PERIOD..] == f;
      SliceBehind(e, PERIOD, lo, BLOCK_SIZE);
      SliceBehind(rest, PERIOD, lo, BLOCK_SIZE);
      if k > 1 {
        SliceBehind(e, PERIOD, lo - PERIOD, BLOCK_SIZE);
      }
    }
  }

  lemma {:induction false} PatternClear(keys: Keys, chain: Block, rest: seq<byte>, i: nat)
    requires i < |rest|
    requires i % PERIOD >= BLOCK_SIZE || i / PERIOD * PERIOD + BLOCK_SIZE >= |rest|
    ensures Pattern(keys, chain, rest)[i] == rest[i]
    decreases i
  {
    if |rest| > BLOCK_SIZE {
      PatternPeriod(keys, chain, rest);
      if i >= PERIOD {
        var c := Seal(keys, chain, rest[..BLOCK_SIZE]);
        PatternClear(keys, c, rest[PERIOD..], i - PERIOD);
      }
    }
  }

  /** Offset i of a NAL unit of length `length` lies in an encrypted block: those of 16 bytes at
    * 32 and every 160 bytes from there that end before the last byte. */
  predicate InIsland(length: nat, i: nat) {
    i >= 32 && (i - 32) % 160 < 16 && 32 + (i - 32) / 160 * 160 + 16 < length
  }

  /** `sealed` is `nal` with these blocks encrypted as one CBC chain from the IV, and every other
    * byte left alone. */
  ghost predicate SealedUnit(keys: Keys, nal: seq<byte>, sealed: seq<byte>) {
    && |sealed| == |nal|
    && (forall i: nat :: i < |nal| && !InIsland(|nal|, i) ==> sealed[i] == nal[i])
    && forall k: nat {:trigger 160 * k} :: 48 + 160 * k < |nal| ==>
         var lo := 32 + 160 * k;
         sealed[lo..lo + 16] ==
           keys.enc(XorBlock(if k == 0 then keys.iv else sealed[lo - 160..lo - 144], nal[lo..lo + 16]))
  }

  /** Types 1 and 5 (slices of non-IDR and IDR pictures) of at least 49 bytes. */
  predicate Selected(cfg: Config, nal: seq<byte>) {
    cfg.enabled && |nal| >= 49 && (nal[0] % 32 == 1 || nal[0] % 32 == 5)
  }

  /** What a receiver gets for a NAL unit: a selected one sealed and escaped, another one as it is. */
  ghost predicate SentFor(cfg: Config, nal: seq<byte>, sent: seq<byte>) {
    if Selected(cfg, nal) then
      SealedUnit(cfg.keys, nal, Unescape(0, sent)) && sent == Escape(0, Unescape(0, sent))
    else sent == nal
  }

  lemma EncryptedBlock(keys: Keys, nal: seq<byte>, k: nat)
    requires CLEAR_LEAD + PERIOD * k + BLOCK_SIZE < |nal|
    ensures var e, lo := EncryptNal(keys, nal), CLEAR_LEAD + PERIOD * k;
      e[lo..lo + BLOCK_SIZE] ==
      Seal(keys, if k == 0 then keys.iv else e[lo - PERIOD..lo - PERIOD + BLOCK_SIZE], nal[lo..lo + BLOCK_SIZE])
  {
    var e, rest, at := EncryptNal(keys, nal), nal[CLEAR_LEAD..], PERIOD * k;
    var p := Pattern(keys, keys.iv, rest);
    assert e[CLEAR_LEAD..] == p;
    PatternBlock(keys, keys.iv, rest, k);
    SliceBehind(e, CLEAR_LEAD, at, BLOCK_SIZE);
    SliceBehind(nal, CLEAR_LEAD, at, BLOCK_SIZE);
    if k > 0 {
      SliceBehind(e, CLEAR_LEAD, at - PERIOD, BLOCK_SIZE);
    }
  }

  lemma SealedExactly(keys: Keys, nal: seq<byte>)
    requires |nal| >= 49
    ensures SealedUnit(keys, nal, EncryptNal(keys, nal))
  {
    var e, rest := EncryptNal(keys, nal), nal[CLEAR_LEAD..];
    forall i: nat | i < |nal| && !InIsland(|nal|, i)
      ensures e[i] == nal[i]
    {
      if i >= CLEAR_LEAD {
        PatternClear(keys, keys.iv, rest, i - CLEAR_LEAD);
      }
    }
    forall k: nat {:trigger 160 * k} | 48 + 160 * k < |nal|
      ensures var lo := 32 + 160 * k;
        e[lo..lo + 16] == keys.enc(XorBlock(if k == 0 then keys.iv else e[lo - 160..lo - 144], nal[lo..lo + 16]))
    {
      EncryptedBlock(keys, nal, k);
    }
  }

  /** Exactly the NAL units of types 1 and 5 with at least 49 bytes are encrypted, if encryption is
    * on, and exactly their blocks [32 + 160k, 48 + 160k) that end before the last byte. */
  lemma EncryptedExactly(cfg: Config, nal: seq<byte>)
    ensures SentFor(cfg, nal, TransformNal(cfg, nal))
  {
    if Selected(cfg, nal) {
      SealedExactly(cfg.keys, nal);
      UnescapeEscape(0, EncryptNal(cfg.keys, nal));
    }
  }

  // ---- the framing survives ----

  lemma FirstAndLastClear(keys: Keys, nal: seq<byte>)
    requires |nal| >= PROBE_SIZE
    ensures EncryptNal(keys, nal)[0] == nal[0]
    ensures EncryptNal(keys, nal)[|nal| - 1] == nal[|nal| - 1]
  {
    PatternClear(keys, keys.iv, nal[CLEAR_LEAD..], |nal| - 1 - CLEAR_LEAD);
  }

  /** Escaping keeps the first and the last byte. */
  lemma {:induction false} EscapeEnds(run: Run, data: seq<byte>)
    requires data != []
    ensures var x := Escape(run, data);
      x != [] && x[|x| - 1] == data[|data| - 1] && (run < 2 ==> x[0] == data[0])
    decreases data
  {
    assert Escape(run, data) == Image(run, data[0]) + Escape(NextRun(run, data[0]), data[1..]);
    if |data| > 1 {
      EscapeEnds(NextRun(run, data[0]), data[1..]);
    }
  }

  lemma CleanHasNoStartCode(data: seq<byte>)
    requires Clean(0, data)
    ensures NoStartCode(data)
  {
    forall i ensures !StartCodeAt(data, i) {
      if StartCodeAt(data, i) {
        CleanAt(0, data, i);
      }
    }
  }

  /** A transformed NAL unit is again a NAL unit: no start code appears in it. */
  lemma TransformedNalOk(cfg: Config, nal: seq<byte>)
    requires NalOk(nal)
    ensures NalOk(TransformNal(cfg, nal))
  {
    if Protects(cfg, nal) {
      var e := EncryptNal(cfg.keys, nal);
      FirstAndLastClear(cfg.keys, nal);
      EscapeEnds(0, e);
      EscapeClean(0, e);
      CleanHasNoStartCode(Escape(0, e));
    }
  }

  lemma {:induction false} FlattenNal(cfg: Config, nal: seq<byte>)
    ensures Flatten(NalImages(cfg, nal)) == TransformNal(cfg, nal)
  {
    FlattenSingles(nal);
  }

  /** The images of a stream, joined, are the transformed stream rendered. */
  lemma {:induction false} FlattenStream(cfg: Config, s: Stream)
    ensures Flatten(StreamImages(cfg, s)) == Render(TransformStream(cfg, s))
    decreases |s.units|
  {
    if s.units == [] {
      FlattenSingles(Zeros(s.trailing));
    } else {
      var u, more := s.units[0], Stream(s.units[1..], s.trailing);
      var framing := Zeros(u.zeros) + [1];
      FlattenStream(cfg, more);
      FlattenConcat(Singles(framing) + NalImages(cfg, u.nal), StreamImages(cfg, more));
      FlattenConcat(Singles(framing), NalImages(cfg, u.nal));
      FlattenSingles(framing);
      FlattenNal(cfg, u.nal);
      var t := TransformStream(cfg, s);
      assert t.units[0] == Unit(u.zeros, TransformNal(cfg, u.nal));
      assert Stream(t.units[1..], t.trailing) == TransformStream(cfg, more);
    }
  }

  /** One image per byte of the rendered stream. */
  lemma {:induction false} StreamImagesLength(cfg: Config, s: Stream)
    ensures |StreamImages(cfg, s)| == |Render(s)|
    decreases |s.units|
  {
    if s.units != [] {
      StreamImagesLength(cfg, Stream(s.units[1..], s.trailing));
    }
  }

  /** The same number of NAL units with the same zeros before and behind them, each sent as it has
    * to be. */
  ghost predicate SentStream(cfg: Config, went: Stream, got: Stream) {
    && |got.units| == |went.units| && got.trailing == went.trailing
    && forall i :: 0 <= i < |went.units| ==>
         got.units[i].zeros == went.units[i].zeros && SentFor(cfg, went.units[i].nal, got.units[i].nal)
  }

  /** Splitting the output gives the transformed units: the same number of NAL
    * units, the same zero runs and start codes, the same trailing zeros. */
  lemma BoundariesSurvive(cfg: Config, s: Stream)
    requires StreamOk(s)
    ensures Split(Flatten(StreamImages(cfg, s))) == Some(TransformStream(cfg, s))
    ensures SentStream(cfg, s, TransformStream(cfg, s))
  {
    hide SentFor;
    var t := TransformStream(cfg, s);
    forall i | 0 <= i < |t.units|
      ensures UnitOk(t.units[i]) && SentFor(cfg, s.units[i].nal, t.units[i].nal)
    {
      EncryptedExactly(cfg, s.units[i].nal);
      assert UnitOk(s.units[i]);
      TransformedNalOk(cfg, s.units[i].nal);
    }
    FlattenStream(cfg, s);
    SplitComplete(t);
  }

  // ---- the original stream can be recovered ----

  function Unpattern(keys: Keys, chain: Block, rest: seq<byte>): (r: seq<byte>)
    ensures |r| == |rest|
    decreases |rest|, 0
  {
    if |rest| <= BLOCK_SIZE then rest
    else
      Unseal(keys, chain, rest[..BLOCK_SIZE])
      + UnpatternAfter(keys, PATTERN_SKIP, rest[..BLOCK_SIZE], rest[BLOCK_SIZE..])
  }

  function UnpatternAfter(keys: Keys, skip: nat, chain: Block, rest: seq<byte>): (r: seq<byte>)
    ensures |r| == |rest|
    decreases |rest|, 1
  {
    if |rest| <= skip then rest else rest[..skip] + Unpattern(keys, chain, rest[skip..])
  }

  /** What a player does with a received NAL unit. */
  function RestoreNal(cfg: Config, nal: seq<byte>): seq<byte> {
    if Protects(cfg, nal) then
      var e := Unescape(0, nal);
      if |e| < PROBE_SIZE then e
      else e[..CLEAR_LEAD] + Unpattern(cfg.keys, cfg.keys.iv, e[CLEAR_LEAD..])
    else nal
  }

  function RestoreStream(cfg: Config, s: Stream): Stream {
    Stream(seq(|s.units|, i requires 0 <= i < |s.units| =>
             Unit(s.units[i].zeros, RestoreNal(cfg, s.units[i].nal))), s.trailing)
  }

  lemma {:induction false} UnpatternPattern(keys: Keys, chain: Block, rest: seq<byte>)
    requires Invertible(keys)
    ensures Unpattern(keys, chain, Pattern(keys, chain, rest)) == rest
    decreases |rest|, 0
  {
    if |rest| > BLOCK_SIZE {
      var c, tail := Seal(keys, chain, rest[..BLOCK_SIZE]), rest[BLOCK_SIZE..];
      var e := Pattern(keys, chain, rest);
      assert e[..BLOCK_SIZE] == c && e[BLOCK_SIZE..] == AfterSkip(keys, PATTERN_SKIP, c, tail);
      UnsealSeal(keys, chain, rest[..BLOCK_SIZE]);
      UnpatternAfterSkip(keys, PATTERN_SKIP, c, tail);
      assert rest == rest[..BLOCK_SIZE] + tail;
    }
  }

  lemma {:induction false} UnpatternAfterSkip(keys: Keys, skip: nat, chain: Block, rest: seq<byte>)
    requires Invertible(keys)
    ensures UnpatternAfter(keys, skip, chain, AfterSkip(keys, skip, chain, rest)) == rest
    decreases |rest|, 1
  {
    if |rest| > skip {
      var e := AfterSkip(keys, skip, chain, rest);
      assert e[..skip] == rest[..skip] && e[skip..] == Pattern(keys, chain, rest[skip..]);
      UnpatternPattern(keys, chain, rest[skip..]);
      assert rest == rest[..skip] + rest[skip..];
    }
  }

  /** The receiver decides as the sender did, and undoes escaping and encryption. */
  lemma RestoreTransformed(cfg: Config, nal: seq<byte>)
    requires Invertible(cfg.keys)
    ensures RestoreNal(cfg, TransformNal(cfg, nal)) == nal
  {
    if Protects(cfg, nal) {
      var e := EncryptNal(cfg.keys, nal);
      var x := Escape(0, e);
      FirstAndLastClear(cfg.keys, nal);
      EscapeEnds(0, e);
      EscapeLength(0, e);
      UnescapeEscape(0, e);
      assert e[..CLEAR_LEAD] == nal[..CLEAR_LEAD];
      assert e[CLEAR_LEAD..] == Pattern(cfg.keys, cfg.keys.iv, nal[CLEAR_LEAD..]);
      UnpatternPattern(cfg.keys, cfg.keys.iv, nal[CLEAR_LEAD..]);
      assert nal == nal[..CLEAR_LEAD] + nal[CLEAR_LEAD..];
    }
  }

  /** Splitting the output and restoring its NAL units gives the input back. */
  lemma StreamRecovered(cfg: Config, data: seq<byte>)
    requires Invertible(cfg.keys) && Split(data).Some?
    ensures var out := Split(Flatten(StreamImages(cfg, Split(data).value)));
      out.Some? && Render(RestoreStream(cfg, out.value)) == data
  {
    SplitSound(data);
    var s := Split(data).value;
    BoundariesSurvive(cfg, s);
    var back := RestoreStream(cfg, TransformStream(cfg, s));
    forall i | 0 <= i < |s.units| ensures back.units[i] == s.units[i] {
      RestoreTransformed(cfg, s.units[i].nal);
    }
    assert back.units == s.units;
  }
}
