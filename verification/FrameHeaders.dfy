/** The audio frame headers by the bit fields of their standards: section 1.A.2.2 of ISO/IEC
  * 14496-3 (ADTS), section 4.4 and Annex E of ATSC A/52 (AC-3 and E-AC-3), and what a PMT says of
  * the first frame: AudioSpecificConfig, the first bytes of an AC-3 frame, and EC3SpecificBox.
  */
module FrameHeaders {
  import opened Bytes
  import opened AudioFrames

  /** Two or three bytes as one number. */
  function Word(b: seq<byte>, at: nat): nat
    requires at + 2 <= |b|
  {
    b[at] as int * 256 + b[at + 1] as int
  }

  function Triple(b: seq<byte>, at: nat): nat
    requires at + 3 <= |b|
  {
    Word(b, at) * 256 + b[at + 2] as int
  }

  // ---- ADTS ----

  /** aac_frame_length: the 13 bits from bit 30 on. */
  function AdtsLength(b: seq<byte>): nat
    requires |b| >= 7
  {
    Triple(b, 3) / 32 % 8192
  }

  /** An ADTS frame: 12 ones, a header of 7 bytes, or of 9 with a checksum, and a length that
    * counts the header. 16 bytes behind the header are clear, each frame has a chain of its own. The
    * setup has 5 bits of audio object type (profile + 1), 4 of sampling frequency index, 3 of
    * channel configuration, and 4 that are zero. */
  lemma AdtsExactly(b: seq<byte>)
    ensures var r := ReadHeader(AAC, b);
      && (r.Short? <==> |b| < 7 || (b[0] == 0xFF && b[1] / 16 == 0xF && b[1] % 2 == 0 && |b| < 9))
      && (!r.Short? ==>
            var clear := if b[1] % 2 == 0 then 9 else 7;
            && (r == Bad(SyncwordMissing) <==> Word(b, 0) / 16 != 0xFFF)
            && (r == Bad(InvalidFrameLength) <==> Word(b, 0) / 16 == 0xFFF && AdtsLength(b) < clear)
            && (r.Good? <==> Word(b, 0) / 16 == 0xFFF && AdtsLength(b) >= clear)
            && (r.Good? ==>
                  && r.header.size == AdtsLength(b) && r.header.lead == clear + 16 && r.header.independent
                  && |r.header.setup| == 2
                  && var w := Word(b, 2);
                  Word(r.header.setup, 0) == (w / 16384 + 1) * 2048 + w / 1024 % 16 * 128 + w / 64 % 8 * 8))
  {
    hide SetupAAC, Word, AdtsLength;
    if |b| >= 7 {
      AdtsSetup(b);
      AdtsBits(b);
    }
  }

  lemma AdtsSetup(b: seq<byte>)
    requires |b| >= 7
    ensures var w := Word(b, 2);
      Word(SetupAAC(b), 0) == (w / 16384 + 1) * 2048 + w / 1024 % 16 * 128 + w / 64 % 8 * 8
  {
    SetupFields(b[2], b[3]);
  }

  lemma AdtsBits(b: seq<byte>)
    requires |b| >= 7
    ensures Word(b, 0) / 16 == 0xFFF <==> b[0] == 0xFF && b[1] / 16 == 15
    ensures var b3: int, b4: int, b5: int := b[3], b[4], b[5];
      AdtsLength(b) == b3 % 4 * 2048 + b4 * 8 + b5 / 32
  {
    LengthFields(b[3], b[4], b[5]);
  }

  lemma SetupFields(b2: byte, b3: byte)
    ensures var w: int := b2 as int * 256 + b3 as int;
      w / 16384 == b2 as int / 64 && w / 1024 % 16 == b2 as int / 4 % 16
      && w / 64 % 8 == b2 as int % 2 * 4 + b3 as int / 64
  {
    var high: int, low: int := b2, b3;
    assert (high * 256 + low) / 1024 == high / 4;
    assert (high * 256 + low) / 64 == high * 4 + low / 64;
    assert high * 4 == high / 2 * 8 + high % 2 * 4;
  }

  lemma LengthFields(b3: byte, b4: byte, b5: byte)
    ensures ((b3 as int * 256 + b4 as int) * 256 + b5 as int) / 32 % 8192
      == b3 as int % 4 * 2048 + b4 as int * 8 + b5 as int / 32
  {
    var x: int, y: int, z: int := b3, b4, b5;
    assert ((x * 256 + y) * 256 + z) / 32 == x * 2048 + y * 8 + z / 32;
    assert x * 2048 == x / 4 * 8192 + x % 4 * 2048;
    var low := x % 4 * 2048 + y * 8 + z / 32;
    assert 0 <= low < 8192;
    assert (x / 4 * 8192 + low) % 8192 == low;
  }

  // ---- AC-3 ----

  /** Kilobits per second, by frmsizecod / 2. */
  function BitRate(n: int): nat
    requires 0 <= n <= 18
  {
    match n
    case 0 => 32 case 1 => 40 case 2 => 48 case 3 => 56 case 4 => 64 case 5 => 80 case 6 => 96 case 7 => 112
    case 8 => 128 case 9 => 160 case 10 => 192 case 11 => 224 case 12 => 256 case 13 => 320 case 14 => 384
    case 15 => 448 case 16 => 512 case 17 => 576 case 18 => 640
  }

  /** Bytes of a frame of 1536 samples at 48, 44.1 and 32 kHz. At 44.1 kHz that is 320/147 words of 16
    * bits for each kilobit per second, rounded down, and one more if frmsizecod is odd. */
  function Ac3Length(fscod: int, frmsizecod: int): nat
    requires 0 <= fscod <= 2 && 0 <= frmsizecod <= 37
  {
    var rate := BitRate(frmsizecod / 2);
    if fscod == 0 then 4 * rate
    else if fscod == 1 then 2 * (320 * rate / 147 + frmsizecod % 2)
    else 6 * rate
  }

  lemma FrameSizeIs(fscod: int, code: int)
    requires 0 <= fscod <= 2 && 0 <= code <= 37
    ensures var words := FrameSizeWords(code);
      Ac3Length(fscod, code) == 2 * if fscod == 0 then words.0 else if fscod == 1 then words.1 else words.2
  {
    hide BitRate, FrameSizeWords;
    WordsAre(code);
  }

  lemma WordsAre(code: int)
    requires 0 <= code <= 37
    ensures var rate := BitRate(code / 2);
      FrameSizeWords(code) == (2 * rate, 320 * rate / 147 + code % 2, 3 * rate)
  {
    if code < 10 {
      assert code in {0, 1, 2, 3, 4, 5, 6, 7, 8, 9};
    } else if code < 20 {
      assert code in {10, 11, 12, 13, 14, 15, 16, 17, 18, 19};
    } else if code < 30 {
      assert code in {20, 21, 22, 23, 24, 25, 26, 27, 28, 29};
    } else {
      assert code in {30, 31, 32, 33, 34, 35, 36, 37};
    }
  }

  /** An AC-3 frame: 0B 77, the checksum, fscod and frmsizecod, and a bsid of at most 8. Its first 16
    * bytes are clear, each frame has a chain of its own, and the setup is its first 10 bytes. */
  lemma Ac3Exactly(b: seq<byte>)
    ensures var r := ReadHeader(AC3, b);
      && (|b| < 5 ==> r == Short)
      && (|b| >= 5 && (b[0] != 0x0B || b[1] != 0x77) ==> r == Bad(SyncwordMissing))
      && (|b| >= 5 && b[0] == 0x0B && b[1] == 0x77 ==>
            && (r == Bad(InvalidFrameSizeCode) <==> b[4] >= 0xC0 || b[4] % 64 > 37)
            && (r == Short <==> b[4] < 0xC0 && b[4] % 64 <= 37 && |b| < 10)
            && (r == Bad(UnsupportedBitstreamId) <==> b[4] < 0xC0 && b[4] % 64 <= 37 && |b| >= 10 && b[5] >= 72)
            && (b[4] < 0xC0 && b[4] % 64 <= 37 && |b| >= 10 && b[5] < 72 ==>
                  r == Good(Header(Ac3Length(b[4] / 64, b[4] % 64), 16, true, b[..10]))))
  {
    hide FrameSizeWords, Ac3Length;
    if |b| >= 5 && b[4] < 0xC0 && b[4] % 64 <= 37 {
      FrameSizeIs(b[4] / 64, b[4] % 64);
    }
  }

  // ---- E-AC-3 ----

  const SAMPLE_RATES: seq<nat> := [48000, 44100, 32000]
  const BLOCKS: seq<nat> := [1, 2, 3, 6]

  /** Kilobits per second of frames of `size` bytes. The four bits are fscod and either numblkscod
    * or, at half the sample rate and with six blocks, fscod2. A block has 256 samples. */
  function Eac3Rate(size: nat, bits: int): nat
    requires 0 <= bits < 15
  {
    if bits >= 12 then size * 8 * (SAMPLE_RATES[bits - 12] / 2) / 1536 / 1000
    else size * 8 * SAMPLE_RATES[bits / 4] / (BLOCKS[bits % 4] * 256) / 1000
  }

  /** 2 bits of fscod, 5 of bsid, 5 that are zero, 3 of acmod, 1 of lfeon, out of two header bytes. */
  function SubstreamFields(b4: int, b5: int): int {
    b4 / 64 * 0x4000 + b5 / 8 * 0x200 + b4 / 2 % 8 * 2 + b4 % 2
  }

  /** An E-AC-3 frame: 0B 77, a stream type other than 3, 11 bits of length, a sample rate, and a
    * bsid from 11 to 16. Its first 16 bytes are clear, and a frame of any type but 1 starts a
    * chain. */
  lemma Eac3Exactly(b: seq<byte>)
    ensures var r := ReadHeader(EAC3, b);
      && (|b| < 7 <==> r == Short)
      && (|b| >= 7 ==>
            var fields, size := Word(b, 2), (Word(b, 2) % 2048 + 1) * 2;
            var sync := Word(b, 0) == 0x0B77;
            && (r == Bad(SyncwordMissing) <==> !sync)
            && (r == Bad(ReservedFrameType) <==> sync && fields >= 0xC000)
            && (r == Bad(InvalidFrameLength) <==> sync && fields < 0xC000 && size < 7)
            && (r == Bad(InvalidSampleRateCode) <==> sync && fields < 0xC000 && size >= 7 && b[4] >= 0xF0)
            && (r == Bad(UnsupportedBitstreamId) <==>
                  sync && fields < 0xC000 && size >= 7 && b[4] < 0xF0 && !(88 <= b[5] < 136))
            && (r.Good? <==> sync && fields < 0xC000 && size >= 7 && b[4] < 0xF0 && 88 <= b[5] < 136)
            && (r.Good? ==>
                  && r.header.size == size && r.header.lead == 16
                  && (r.header.independent <==> fields / 0x4000 != 1)))
  {
    hide SetupEAC3, Word;
    if |b| >= 7 {
      Eac3Bits(b);
    }
  }

  lemma Eac3Bits(b: seq<byte>)
    requires |b| >= 7
    ensures Word(b, 0) == 0x0B77 <==> b[0] == 0x0B && b[1] == 0x77
    ensures Word(b, 2) % 2048 == b[2] as int % 8 * 256 + b[3] as int && Word(b, 2) / 0x4000 == b[2] as int / 64
    ensures Word(b, 2) >= 0xC000 <==> b[2] as int / 64 == 3
    ensures b[4] >= 0xF0 <==> b[4] / 64 == 3 && b[4] / 16 % 4 == 3
    ensures 88 <= b[5] < 136 <==> 11 <= b[5] / 8 <= 16
  {
    var high: int := b[2];
    assert high == high / 8 * 8 + high % 8;
  }

  /** The setup: 13 bits of data rate and 3 that are zero; fscod, bsid, 5 bits that are zero (among
    * them bsmod), acmod and lfeon; 8 that are zero. */
  lemma Eac3Setup(b: seq<byte>)
    requires ReadHeader(EAC3, b).Good?
    ensures |b| >= 7 && |ReadHeader(EAC3, b).header.setup| == 5 && b[4] as int / 16 < 15
    ensures var h := ReadHeader(EAC3, b).header;
      && Word(h.setup, 0) == Eac3Rate(h.size, b[4] as int / 16) * 8
      && Triple(h.setup, 2) == SubstreamFields(b[4], b[5]) * 0x100
  {
    hide SetupEAC3, FrameRate, FrameBlocks, DataRate, Eac3Rate, ReadEAC3;
    DataRateFits(b);
    var h := ReadHeader(EAC3, b).header;
    EAC3Fields(b);
    SetupBits(b, h.size);
    Accepted(b);
    RateIs(h.size, b[4] / 64, b[4] / 16 % 4);
  }

  lemma Accepted(b: seq<byte>)
    requires ReadHeader(EAC3, b).Good?
    ensures |b| >= 7 && |ReadHeader(EAC3, b).header.setup| == 5
    ensures !(b[4] / 64 == 3 && b[4] / 16 % 4 == 3) && b[4] as int / 16 == b[4] as int / 64 * 4 + b[4] as int / 16 % 4
  {
    hide SetupEAC3;
  }

  lemma RateIs(size: nat, fscod: int, code: int)
    requires 0 <= fscod <= 3 && 0 <= code <= 3 && !(fscod == 3 && code == 3)
    ensures Eac3Rate(size, fscod * 4 + code) == DataRate(size, FrameRate(fscod, code), FrameBlocks(fscod, code))
  {
  }

  lemma SetupBits(b: seq<byte>, size: nat)
    requires |b| >= 7
    ensures var setup := SetupEAC3(b, size);
      setup[1] % 8 == 0 && Triple(setup, 2) == SubstreamFields(b[4], b[5]) * 0x100
  {
    Fields(b[4], b[5]);
  }

  lemma Fields(b4: byte, b5: byte)
    ensures var high, low := (b4 as int / 64 * 64 + b5 as int / 8 * 2) % 256, b4 as int / 2 % 8 * 2 + b4 as int % 2;
      high * 256 + low == SubstreamFields(b4, b5)
  {
    assert b4 as int / 64 * 64 + b5 as int / 8 * 2 < 256;
  }
}
