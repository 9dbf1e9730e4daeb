/** Audio framing and Sample-AES for ADTS AAC, AC-3 and E-AC-3: frame headers as
  * ts/codecs/aac, ac3 and eac3 read them, the frame-by-frame encryption of Apple's
  * "MPEG-2 Stream Encryption Format for HTTP Live Streaming", and the machine that
  * finds the frames in a growing buffer.
  */
module AudioFrames {
  import opened Bytes
  import opened Cipher
  import opened Wrappers

  datatype Codec = AAC | AC3 | EAC3

  datatype Error =
    | SyncwordMissing
    | InvalidFrameLength
    | InvalidFrameSizeCode
    | UnsupportedBitstreamId
    | ReservedFrameType
    | InvalidSampleRateCode
    | IndependentFrameRequired

  /** `lead` bytes are clear; `independent` frames start a new CBC chain; `setup` is
    * what the first frame of a stream puts into the PMT. */
  datatype Header = Header(size: nat, lead: nat, independent: bool, setup: seq<byte>)

  datatype Read = Short | Bad(error: Error) | Good(header: Header)

  // ---- frame headers ----

  function ReadAAC(b: seq<byte>): Read {
    if |b| < 7 then Short
    else if b[0] != 0xFF || b[1] / 16 != 15 then Bad(SyncwordMissing)
    else
      var headerSize := if b[1] % 2 == 0 then 9 else 7;
      if |b| < headerSize then Short
      else
        var b3: int, b4: int, b5: int := b[3], b[4], b[5];
        var size := b3 % 4 * 2048 + b4 * 8 + b5 / 32;
        if size < headerSize then Bad(InvalidFrameLength)
        else Good(Header(size, headerSize + 16, true, SetupAAC(b)))
  }

  /** AudioSpecificConfig: object type, sampling frequency index, channel configuration. */
  function SetupAAC(b: seq<byte>): (r: seq<byte>)
    requires |b| >= 7
    ensures |r| == 2
  {
    var objectType, frequency, channels := b[2] / 64 + 1, b[2] / 4 % 16, b[2] % 2 * 4 + b[3] / 64;
    [objectType * 8 + frequency / 2, frequency % 2 * 128 + channels * 8]
  }

  /** Words per frame, by frmsizecod, for 48, 44.1 and 32 kHz. */
  function FrameSizeWords(code: int): (r: (int, int, int))
    requires 0 <= code <= 37
    ensures r.0 >= 64 && r.1 >= 69 && r.2 >= 96
  {
    match code
    case 0 => (64, 69, 96)
    case 1 => (64, 70, 96)
    case 2 => (80, 87, 120)
    case 3 => (80, 88, 120)
    case 4 => (96, 104, 144)
    case 5 => (96, 105, 144)
    case 6 => (112, 121, 168)
    case 7 => (112, 122, 168)
    case 8 => (128, 139, 192)
    case 9 => (128, 140, 192)
    case 10 => (160, 174, 240)
    case 11 => (160, 175, 240)
    case 12 => (192, 208, 288)
    case 13 => (192, 209, 288)
    case 14 => (224, 243, 336)
    case 15 => (224, 244, 336)
    case 16 => (256, 278, 384)
    case 17 => (256, 279, 384)
    case 18 => (320, 348, 480)
    case 19 => (320, 349, 480)
    case 20 => (384, 417, 576)
    case 21 => (384, 418, 576)
    case 22 => (448, 487, 672)
    case 23 => (448, 488, 672)
    case 24 => (512, 557, 768)
    case 25 => (512, 558, 768)
    case 26 => (640, 696, 960)
    case 27 => (640, 697, 960)
    case 28 => (768, 835, 1152)
    case 29 => (768, 836, 1152)
    case 30 => (896, 975, 1344)
    case 31 => (896, 976, 1344)
    case 32 => (1024, 1114, 1536)
    case 33 => (1024, 1115, 1536)
    case 34 => (1152, 1253, 1728)
    case 35 => (1152, 1254, 1728)
    case 36 => (1280, 1393, 1920)
    case 37 => (1280, 1394, 1920)
  }

  function ReadAC3(b: seq<byte>): Read {
    if |b| < 5 then Short
    else if b[0] != 0x0B || b[1] != 0x77 then Bad(SyncwordMissing)
    else
      var fscod, code := b[4] / 64, b[4] % 64;
      if fscod > 2 || code > 37 then Bad(InvalidFrameSizeCode)
      else
        var words := FrameSizeWords(code);
        var size := 2 * if fscod == 0 then words.0 else if fscod == 1 then words.1 else words.2;
        if |b| < 10 then Short
        else if b[5] / 8 > 8 then Bad(UnsupportedBitstreamId)
        else Good(Header(size, 16, true, b[..10]))
  }

  function SampleRate(code: int): (r: nat)
    ensures r <= 48000
  {
    if code == 0 then 48000 else if code == 1 then 44100 else if code == 2 then 32000 else 0
  }

  predicate IsBlockCount(n: int) {
    n == 1 || n == 2 || n == 3 || n == 6
  }

  /** numblkscod, which is absent (six blocks) at half sample rates. */
  function FrameBlocks(fscod: int, code: int): (r: nat)
    ensures IsBlockCount(r)
  {
    if fscod == 3 then 6 else if code == 0 then 1 else if code == 1 then 2 else if code == 2 then 3 else 6
  }

  function FrameRate(fscod: int, code: int): (r: nat)
    ensures r <= 48000
  {
    if fscod == 3 then SampleRate(code) / 2 else SampleRate(fscod)
  }

  function ReadEAC3(b: seq<byte>): Read {
    if |b| < 7 then Short
    else if b[0] != 0x0B || b[1] != 0x77 then Bad(SyncwordMissing)
    else if b[2] / 64 == 3 then Bad(ReservedFrameType)
    else
      var b2: int, b3: int := b[2], b[3];
      var size := (b2 % 8 * 256 + b3 + 1) * 2;
      if size < 7 then Bad(InvalidFrameLength)
      else if b[4] / 64 == 3 && b[4] / 16 % 4 == 3 then Bad(InvalidSampleRateCode)
      else if b[5] / 8 < 11 || b[5] / 8 > 16 then Bad(UnsupportedBitstreamId)
      else Good(Header(size, 16, b[2] / 64 != 1, SetupEAC3(b, size)))
  }

  /** Kilobits per second, from the frame size, the sample rate and the number of blocks. */
  function DataRate(size: nat, sampleRate: nat, blocks: nat): nat
    requires IsBlockCount(blocks)
  {
    size * 8 * sampleRate / (blocks * 256) / 1000
  }

  /** EC3SpecificBox content: data_rate in 13 bits, then the first substream's fields. */
  function SetupEAC3(b: seq<byte>, size: nat): (r: seq<byte>)
    requires |b| >= 7
    ensures |r| == 5
  {
    var fscod, code := b[4] / 64, b[4] / 16 % 4;
    var rate := DataRate(size, FrameRate(fscod, code), FrameBlocks(fscod, code));
    [rate / 32 % 256, rate * 8 % 256, (b[4] / 64 * 64 + b[5] / 8 * 2) % 256, b[4] / 2 % 8 * 2 + b[4] % 2, 0]
  }

  function ReadHeader(codec: Codec, b: seq<byte>): (r: Read)
    ensures r.Good? ==> r.header.size >= 7
  {
    match codec
    case AAC => ReadAAC(b)
    case AC3 => ReadAC3(b)
    case EAC3 => ReadEAC3(b)
  }

  lemma RateBound(size: nat, sampleRate: nat, blocks: nat)
    requires size <= 4096 && sampleRate <= 48000 && IsBlockCount(blocks)
    ensures DataRate(size, sampleRate, blocks) <= 6144
  {
    var bits := size * 8 * sampleRate;
    BitsBound(size, sampleRate);
    if blocks == 1 {
      Thousandth(bits, 256);
    } else if blocks == 2 {
      Thousandth(bits, 512);
    } else if blocks == 3 {
      Thousandth(bits, 768);
    } else {
      Thousandth(bits, 1536);
    }
  }

  lemma BitsBound(size: nat, sampleRate: nat)
    requires size <= 4096 && sampleRate <= 48000
    ensures size * 8 * sampleRate <= 1572864000
  {
    Larger(size * 8, 32768, sampleRate);
  }

  lemma Larger(a: nat, b: nat, c: nat)
    requires a <= b
    ensures a * c <= b * c
  {
  }

  lemma Thousandth(bits: nat, samples: nat)
    requires bits <= 1572864000 && samples >= 256
    ensures bits / samples / 1000 <= 6144
  {
    var q := bits / samples;
    assert q * 256 <= q * samples <= bits;
  }

  lemma SplitRate(rate: nat)
    requires rate < 8192
    ensures rate / 32 % 256 == rate / 32 && rate / 32 * 32 + rate * 8 % 256 / 8 == rate
  {
    assert rate * 8 % 256 == rate % 32 * 8;
  }

  /** The data rate of any frame fits its 13 bits, so the setup carries it exactly. */
  lemma DataRateFits(b: seq<byte>)
    requires ReadEAC3(b).Good?
    ensures var h := ReadEAC3(b).header;
      var fscod, code := b[4] / 64, b[4] / 16 % 4;
      var high: int, low: int := h.setup[0], h.setup[1];
      high * 32 + low / 8 == DataRate(h.size, FrameRate(fscod, code), FrameBlocks(fscod, code)) < 8192
  {
    EAC3Fields(b);
    SetupRate(b, ReadEAC3(b).header.size);
  }

  lemma EAC3Fields(b: seq<byte>)
    requires ReadEAC3(b).Good?
    ensures |b| >= 7 && ReadEAC3(b).header.size <= 4096
    ensures ReadEAC3(b).header.setup == SetupEAC3(b, ReadEAC3(b).header.size)
  {
  }

  lemma SetupRate(b: seq<byte>, size: nat)
    requires |b| >= 7 && size <= 4096
    ensures var setup, fscod, code := SetupEAC3(b, size), b[4] / 64, b[4] / 16 % 4;
      var high: int, low: int := setup[0], setup[1];
      high * 32 + low / 8 == DataRate(size, FrameRate(fscod, code), FrameBlocks(fscod, code)) < 8192
  {
    var fscod, code := b[4] / 64, b[4] / 16 % 4;
    var rate := DataRate(size, FrameRate(fscod, code), FrameBlocks(fscod, code));
    RateBound(size, FrameRate(fscod, code), FrameBlocks(fscod, code));
    SplitRate(rate);
  }

  /** More bytes never change a header that could be read, nor an error. */
  lemma HeaderStable(codec: Codec, a: seq<byte>, b: seq<byte>)
    requires !ReadHeader(codec, a).Short?
    ensures ReadHeader(codec, a + b) == ReadHeader(codec, a)
  {
    if codec == AC3 && |a| >= 10 {
      assert (a + b)[..10] == a[..10];
    }
  }

  /** A frame carries its own header: what follows the frame does not matter. */
  lemma HeaderInFrame(codec: Codec, b: seq<byte>)
    requires ReadHeader(codec, b).Good? && ReadHeader(codec, b).header.size <= |b|
    ensures ReadHeader(codec, b[..ReadHeader(codec, b).header.size]) == ReadHeader(codec, b)
  {
    var n := ReadHeader(codec, b).header.size;
    assert b == b[..n] + b[n..];
    assert !ReadHeader(codec, b[..n]).Short?;
    HeaderStable(codec, b[..n], b[n..]);
  }

  /** A header never reaches into the protected bytes. */
  lemma HeaderIsClear(codec: Codec, a: seq<byte>, b: seq<byte>)
    requires ReadHeader(codec, a).Good? && |a| >= ReadHeader(codec, a).header.size
    requires |a| == |b| && forall i :: 0 <= i < |a| && i < ReadHeader(codec, a).header.lead ==> b[i] == a[i]
    ensures ReadHeader(codec, b) == ReadHeader(codec, a)
  {
    if codec == AC3 {
      assert b[..10] == a[..10];
    }
  }

  ghost predicate UnfoldSound(k: int) {
    true
  }

  /** What the machine needs of a header reader. Sealed. */
  ghost predicate Sound(read: seq<byte> -> Read) {
    forall k {:trigger UnfoldSound(k)} :: UnfoldSound(k) ==>
      && read([]) == Short
      && (forall a, b {:trigger read(a + b)} :: !read(a).Short? ==> read(a + b) == read(a))
      && (forall b {:trigger read(b)} :: read(b).Good? ==> read(b).header.size >= 7)
      && (forall b {:trigger read(b)} :: read(b).Good? && read(b).header.size <= |b| ==>
        read(b[..read(b).header.size]) == read(b))
      && (forall a, b {:trigger Agree(a, b)} ::
        read(a).Good? && read(a).header.size <= |a| && Agree(a, b) && ClearUpTo(a, b, read(a).header.lead)
        ==> read(b) == read(a))
  }

  predicate Agree(a: seq<byte>, b: seq<byte>) {
    |a| == |b|
  }

  predicate ClearUpTo(a: seq<byte>, b: seq<byte>, lead: nat)
    requires |a| == |b|
  {
    forall i :: 0 <= i < |a| && i < lead ==> b[i] == a[i]
  }

  /** A format is known to the framing machine by its header reader. */
  type Reader = read: seq<byte> -> Read | Sound(read) witness (b => Short)

  lemma CodecSound(codec: Codec, read: seq<byte> -> Read)
    requires forall b :: read(b) == ReadHeader(codec, b)
    ensures Sound(read)
  {
    forall a, b | !read(a).Short? ensures read(a + b) == read(a) {
      HeaderStable(codec, a, b);
    }
    forall b | read(b).Good? && read(b).header.size <= |b| ensures read(b[..read(b).header.size]) == read(b) {
      HeaderInFrame(codec, b);
    }
    forall a, b | read(a).Good? && read(a).header.size <= |a| && Agree(a, b) && ClearUpTo(a, b, read(a).header.lead)
      ensures read(b) == read(a)
    {
      HeaderIsClear(codec, a, b);
    }
  }

  /** The three formats. */
  function ReaderOf(codec: Codec): Reader {
    var read := b => ReadHeader(codec, b);
    CodecSound(codec, read);
    read
  }

  lemma ReaderStable(read: Reader, a: seq<byte>, b: seq<byte>)
    requires !read(a).Short?
    ensures read(a + b) == read(a)
  {
    assert UnfoldSound(0);
  }

  lemma ReaderInFrame(read: Reader, b: seq<byte>)
    requires read(b).Good? && read(b).header.size <= |b|
    ensures read(b[..read(b).header.size]) == read(b)
  {
    assert UnfoldSound(0);
  }

  lemma ReaderSize(read: Reader, b: seq<byte>)
    requires read(b).Good?
    ensures read(b).header.size >= 7
  {
    assert UnfoldSound(0);
  }

  lemma ReaderEmpty(read: Reader)
    ensures read([]) == Short
  {
    assert UnfoldSound(0);
  }

  lemma ReaderClear(read: Reader, a: seq<byte>, b: seq<byte>)
    requires read(a).Good? && read(a).header.size <= |a| && |a| == |b| && ClearUpTo(a, b, read(a).header.lead)
    ensures read(b) == read(a)
  {
    assert UnfoldSound(0);
    assert Agree(a, b);
  }

  // ---- one frame ----

  /** How many whole blocks are protected. */
  function ProtectedSize(h: Header): (n: nat)
    ensures n % 16 == 0 && (n > 0 ==> h.lead + n <= h.size)
  {
    if h.size > h.lead then (h.size - h.lead) / 16 * 16 else 0
  }

  /** Replaces data[lead..lead + |mid|]. */
  function Patch(data: seq<byte>, lead: nat, mid: seq<byte>): (r: seq<byte>)
    requires lead + |mid| <= |data|
    ensures |r| == |data|
    ensures r[lead..lead + |mid|] == mid
    ensures forall i :: 0 <= i < lead || lead + |mid| <= i < |data| ==> r[i] == data[i]
  {
    data[..lead] + mid + data[lead + |mid|..]
  }

  /** A frame is sent with its whole blocks after the clear lead encrypted. */
  function SealFrame(keys: Keys, chain: Block, h: Header, frame: seq<byte>): (r: seq<byte>)
    requires |frame| == h.size
    ensures |r| == |frame|
  {
    if ProtectedSize(h) == 0 then frame else Patch(frame, h.lead, Cbc(keys, chain, Protected(h, frame)))
  }

  function OpenFrame(keys: Keys, chain: Block, h: Header, frame: seq<byte>): (r: seq<byte>)
    requires |frame| == h.size
    ensures |r| == |frame|
  {
    if ProtectedSize(h) == 0 then frame else Patch(frame, h.lead, CbcDecrypt(keys, chain, Protected(h, frame)))
  }

  /** The protected bytes of a frame: all behind the clear lead but what is left of a block. */
  function Protected(h: Header, frame: seq<byte>): (r: seq<byte>)
    requires |frame| == h.size
    ensures |r| == ProtectedSize(h) && |r| % 16 == 0
  {
    if |frame| < h.lead + 16 then [] else frame[h.lead..|frame| - (|frame| - h.lead) % 16]
  }

  lemma ProtectedSlice(h: Header, frame: seq<byte>)
    requires |frame| == h.size && ProtectedSize(h) > 0
    ensures h.lead + ProtectedSize(h) <= |frame|
    ensures Protected(h, frame) == frame[h.lead..h.lead + ProtectedSize(h)]
  {
  }

  /** The chain a frame is encrypted under. */
  function StartChain(keys: Keys, h: Header, chain: Block): Block {
    if h.independent then keys.iv else chain
  }

  function EndChain(keys: Keys, h: Header, chain: Block, frame: seq<byte>): Block
    requires |frame| == h.size
  {
    CbcChain(keys, StartChain(keys, h, chain), Protected(h, frame))
  }

  // ---- a stream of frames ----

  /** `frame` is exactly one frame. */
  predicate FrameOk(read: Reader, frame: seq<byte>) {
    var r := read(frame);
    r.Good? && r.header.size == |frame|
  }

  function HeaderOf(read: Reader, frame: seq<byte>): (h: Header)
    requires FrameOk(read, frame)
    ensures h.size == |frame|
  {
    read(frame).header
  }

  /** A stream is a list of whole frames, of which the first starts a chain. */
  predicate FramesOk(read: Reader, frames: seq<seq<byte>>) {
    && (forall i :: 0 <= i < |frames| ==> FrameOk(read, frames[i]))
    && (frames != [] ==> HeaderOf(read, frames[0]).independent)
  }

  /** The definition: frame by frame, the chain carried from each frame to the next. */
  function SealFrames(read: Reader, keys: Keys, chain: Block, frames: seq<seq<byte>>): (r: seq<seq<byte>>)
    requires forall i :: 0 <= i < |frames| ==> FrameOk(read, frames[i])
    ensures |r| == |frames|
    decreases |frames|
  {
    if frames == [] then []
    else
      var h := HeaderOf(read, frames[0]);
      [SealFrame(keys, StartChain(keys, h, chain), h, frames[0])]
      + SealFrames(read, keys, EndChain(keys, h, chain, frames[0]), frames[1..])
  }

  // ---- the machine ----

  /** What a transformer keeps: whether the PMT setup was sent, the CBC state, the buffer. */
  datatype State = State(setup: Option<seq<byte>>, chain: Option<Block>, buffer: seq<byte>)

  datatype Step = Wait(state: State) | Failed(error: Error) | Emit(next: State, frame: seq<byte>)

  const Init: State := State(None, None, [])

  /** Before the first frame of a stream has left, the buffer starts with an independent frame. */
  ghost predicate StateOk(read: Reader, s: State) {
    s.setup.Some? && s.chain.None? ==> read(s.buffer).Good? && read(s.buffer).header.independent
  }

  /** One round of processFrames. */
  function Process(read: Reader, keys: Keys, s: State): (r: Step)
    requires StateOk(read, s)
    ensures r.Emit? ==> StateOk(read, r.next) && 0 < |r.frame| && |r.next.buffer| + |r.frame| == |s.buffer|
    ensures r.Wait? ==> StateOk(read, r.state) && r.state.buffer == s.buffer
  {
    match read(s.buffer)
    case Short => Wait(s)
    case Bad(e) => Failed(e)
    case Good(h) =>
      ReaderSize(read, s.buffer);
      if s.setup.None? && !h.independent then Failed(IndependentFrameRequired)
      else
        var started := s.(setup := if s.setup.None? then Some(h.setup) else s.setup);
        if |s.buffer| < h.size then
          Wait(started)
        else
          var frame := s.buffer[..h.size];
          var chain := if h.independent then keys.iv else s.chain.value;
          Emit(started.(chain := Some(EndChain(keys, h, chain, frame)), buffer := s.buffer[h.size..]),
               SealFrame(keys, chain, h, frame))
  }
}
