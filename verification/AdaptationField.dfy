/** The adaptation field of a transport packet (sections 2.4.3.4 and 2.4.3.5 of
  * ISO/IEC 13818-1) as internal/go-astits/packet.go writes, parses and sizes it.
  *
  * A Has flag and the value it announces are one optional value here; the parsed
  * Length values are not kept, since the writer computes them again.
  */
module AdaptationField {
  import opened Bytes
  import opened Wrappers

  datatype Clock = Clock(base: nat, extension: nat)

  datatype Window = Window(valid: bool, offset: nat)
  datatype Splice = Splice(kind: nat, dts: nat)
  datatype Extension = Extension(window: Option<Window>, piecewiseRate: Option<nat>, seamless: Option<Splice>)

  datatype Field = Field(
    discontinuity: bool, randomAccess: bool, priority: bool,
    pcr: Option<Clock>, opcr: Option<Clock>, countdown: Option<nat>,
    privateData: Option<seq<byte>>, extension: Option<Extension>,
    stuffing: int, oneByte: bool)

  const BODY := 184

  // ---- numbers as bytes ----

  /** The low 8 * width bits of n, most significant byte first. */
  function BigEndian(n: nat, width: nat): (r: seq<byte>)
    ensures |r| == width
  {
    if width == 0 then [] else BigEndian(n / 256, width - 1) + [n % 256]
  }

  function FromBigEndian(b: seq<byte>): nat {
    if b == [] then 0 else FromBigEndian(b[..|b| - 1]) * 256 + b[|b| - 1] as int
  }

  function Pow256(width: nat): (r: nat)
    ensures r >= 1
  {
    if width == 0 then 1 else 256 * Pow256(width - 1)
  }

  lemma {:induction false} BigEndianInverse(n: nat, width: nat)
    requires n < Pow256(width)
    ensures FromBigEndian(BigEndian(n, width)) == n
    decreases width
  {
    if width > 0 {
      BigEndianInverse(n / 256, width - 1);
      var b := BigEndian(n, width);
      assert b[..|b| - 1] == BigEndian(n / 256, width - 1);
    }
  }

  /** The low `width` bits of n, most significant first. */
  function Bits(n: nat, width: nat): (r: seq<bool>)
    ensures |r| == width
  {
    if width == 0 then [] else Bits(n / 2, width - 1) + [n % 2 == 1]
  }

  function FromBits(b: seq<bool>): nat {
    if b == [] then 0 else 2 * FromBits(b[..|b| - 1]) + Bit(b[|b| - 1])
  }

  function Bit(b: bool): (r: nat)
    ensures r <= 1
  {
    if b then 1 else 0
  }

  lemma {:induction false} BitsInverse(b: seq<bool>)
    ensures Bits(FromBits(b), |b|) == b
    ensures FromBits(b) < Pow2(|b|)
  {
    if b != [] {
      BitsInverse(b[..|b| - 1]);
      assert FromBits(b) / 2 == FromBits(b[..|b| - 1]);
      assert b == b[..|b| - 1] + [b[|b| - 1]];
    }
  }

  /** Eight flags in a byte. */
  function FlagByte(b: seq<bool>): byte
    requires |b| == 8
  {
    BitsInverse(b);
    assert Pow2(8) == 256 by { assert Pow2(4) == 16; }
    FromBits(b)
  }

  // ---- reading ----

  datatype Got<T> = Fail | Got(value: T, rest: seq<byte>)

  function Take(d: seq<byte>, n: nat): (r: Got<seq<byte>>)
    ensures r.Got? ==> |r.value| == n && d == r.value + r.rest
  {
    if |d| < n then Fail else Got(d[..n], d[n..])
  }

  function TakeByte(d: seq<byte>): Got<byte> {
    if d == [] then Fail else Got(d[0], d[1..])
  }

  lemma TakeBack(a: seq<byte>, rest: seq<byte>)
    ensures Take(a + rest, |a|) == Got(a, rest)
  {
    assert (a + rest)[..|a|] == a && (a + rest)[|a|..] == rest;
  }

  lemma TakeByteBack(b: byte, rest: seq<byte>)
    ensures TakeByte([b] + rest) == Got(b, rest)
  {
    assert ([b] + rest)[1..] == rest;
  }

  /** An optional part: read it if its flag is set. */
  function Maybe<T>(flag: bool, d: seq<byte>, read: seq<byte> -> Got<T>): Got<Option<T>> {
    if !flag then Got(None, d)
    else match read(d)
      case Fail => Fail
      case Got(v, rest) => Got(Some(v), rest)
  }

  // ---- clock references ----

  const TWO_33 := 0x2_0000_0000
  const TWO_30 := 0x4000_0000
  const TWO_22 := 0x40_0000
  const TWO_15 := 0x8000

  predicate ClockOk(c: Clock) {
    c.base < TWO_33 && c.extension < 512
  }

  /** 33 bits of base, 6 reserved bits, 9 bits of extension. */
  function WriteClock(c: Clock): (r: seq<byte>)
    ensures |r| == 6
  {
    BigEndian(c.base % TWO_33 * 0x8000 + 0x3F * 512 + c.extension % 512, 6)
  }

  function ReadClock(d: seq<byte>): Got<Clock> {
    match Take(d, 6)
    case Fail => Fail
    case Got(b, rest) =>
      var v := FromBigEndian(b);
      Got(Clock(v / 0x8000, v % 512), rest)
  }

  lemma ClockBits(base: nat, extension: nat)
    requires base < TWO_33 && extension < 512
    ensures var v := base * 0x8000 + 0x3F * 512 + extension;
      v < 0x1_0000_0000_0000 && v / 0x8000 == base && v % 512 == extension
  {
    var v := base * 0x8000 + 0x3F * 512 + extension;
    assert v == 512 * (base * 64 + 0x3F) + extension;
  }

  lemma ClockBack(c: Clock, rest: seq<byte>)
    requires ClockOk(c)
    ensures ReadClock(WriteClock(c) + rest) == Got(c, rest)
  {
    hide BigEndian, FromBigEndian, Take, Pow256;
    var v := c.base * 0x8000 + 0x3F * 512 + c.extension;
    TakeBack(WriteClock(c), rest);
    ClockBits(c.base, c.extension);
    SixBytes();
    BigEndianInverse(v, 6);
    assert c.base % TWO_33 == c.base && c.extension % 512 == c.extension;
  }

  lemma SixBytes()
    ensures Pow256(6) == 0x1_0000_0000_0000
  {
    assert Pow256(2) == 65536;
    assert Pow256(4) == 0x1_0000_0000;
  }

  // ---- private data ----

  function WritePrivate(data: seq<byte>): (r: seq<byte>)
    ensures |r| == 1 + |data|
  {
    [|data| % 256] + data
  }

  function ReadPrivate(d: seq<byte>): Got<seq<byte>> {
    match TakeByte(d)
    case Fail => Fail
    case Got(n, rest) => Take(rest, n)
  }

  lemma PrivateBack(data: seq<byte>, rest: seq<byte>)
    requires |data| < 256
    ensures ReadPrivate(WritePrivate(data) + rest) == Got(data, rest)
  {
    assert WritePrivate(data) + rest == [|data| % 256] + (data + rest);
    TakeByteBack(|data| % 256, data + rest);
    TakeBack(data, rest);
  }

  // ---- the extension ----

  predicate ExtensionOk(e: Extension) {
    && (e.window.Some? ==> e.window.value.offset < TWO_15)
    && (e.piecewiseRate.Some? ==> e.piecewiseRate.value < TWO_22)
    && (e.seamless.Some? ==> e.seamless.value.kind < 16 && e.seamless.value.dts < TWO_33)
  }

  function ExtensionLength(e: Extension): (r: nat)
    ensures 1 <= r <= 11
  {
    1 + (if e.window.Some? then 2 else 0) + (if e.piecewiseRate.Some? then 3 else 0) + (if e.seamless.Some? then
      5 else 0)
  }

  function WriteWindow(w: Window): (r: seq<byte>)
    ensures |r| == 2
  {
    [Bit(w.valid) * 128 + w.offset / 256 % 128, w.offset % 256]
  }

  function ReadWindow(d: seq<byte>): Got<Window> {
    match Take(d, 2)
    case Fail => Fail
    case Got(b, rest) => Got(Window(b[0] >= 128, b[0] as int % 128 * 256 + b[1] as int), rest)
  }

  function WriteRate(n: nat): (r: seq<byte>)
    ensures |r| == 3
  {
    [192 + n / 65536 % 64, n / 256 % 256, n % 256]
  }

  function ReadRate(d: seq<byte>): Got<nat> {
    match Take(d, 3)
    case Fail => Fail
    case Got(b, rest) => Got(b[0] as int % 64 * 65536 + b[1] as int * 256 + b[2] as int, rest)
  }

  /** Splice type and DTS: 4 bits, then 3, 15 and 15 bits, each followed by a marker bit. */
  function WriteSplice(s: Splice): (r: seq<byte>)
    ensures |r| == 5
  {
    [s.kind % 16 * 16 + s.dts / TWO_30 % 8 * 2 + 1, s.dts / TWO_22 % 256, s.dts / TWO_15 % 128 * 2 + 1,
     s.dts / 128 % 256, s.dts % 128 * 2 + 1]
  }

  function ReadSplice(d: seq<byte>): Got<Splice> {
    match Take(d, 5)
    case Fail => Fail
    case Got(b, rest) =>
      Got(Splice(b[0] as int / 16,
                 b[0] as int / 2 % 8 * TWO_30 + b[1] as int * TWO_22 + b[2] as int / 2 % 128 * TWO_15
                 + b[3] as int * 128 + b[4] as int / 2 % 128), rest)
  }

  lemma WindowBack(w: Window, rest: seq<byte>)
    requires w.offset < TWO_15
    ensures ReadWindow(WriteWindow(w) + rest) == Got(w, rest)
  {
    TakeBack(WriteWindow(w), rest);
  }

  lemma RateBack(n: nat, rest: seq<byte>)
    requires n < TWO_22
    ensures ReadRate(WriteRate(n) + rest) == Got(n, rest)
  {
    TakeBack(WriteRate(n), rest);
    assert n == n / 65536 * 65536 + n % 65536;
    assert n % 65536 == n / 256 % 256 * 256 + n % 256;
  }

  /** A 33-bit number is put together from its five pieces. */
  lemma DtsPieces(n: nat)
    requires n < TWO_33
    ensures n == n / TWO_30 % 8 * TWO_30 + n / TWO_22 % 256 * TWO_22 + n / TWO_15 % 128 * TWO_15
      + n / 128 % 256 * 128 + n % 128
  {
    var a, b, c, d := n / 128, n / TWO_15, n / TWO_22, n / TWO_30;
    assert n == a * 128 + n % 128;
    assert b == a / 256 && a == b * 256 + a % 256;
    assert c == b / 128 && b == c * 128 + b % 128;
    assert d == c / 256 && c == d * 256 + c % 256;
  }

  /** A marker bit below k bits of payload. */
  lemma MarkedByte(v: nat)
    ensures (v * 2 + 1) / 2 == v
  {
  }

  lemma SpliceFirst(kind: nat, top: nat)
    requires kind < 16 && top < 8
    ensures (kind * 16 + top * 2 + 1) / 16 == kind && (kind * 16 + top * 2 + 1) / 2 % 8 == top
  {
    assert kind * 16 + top * 2 + 1 == 2 * (kind * 8 + top) + 1;
  }

  lemma SplicePieces(kind: nat, a: nat, b: byte, c: nat, d: byte, e: nat, rest: seq<byte>)
    requires kind < 16 && a < 8 && c < 128 && e < 128
    ensures ReadSplice([kind * 16 + a * 2 + 1, b, c * 2 + 1, d, e * 2 + 1] + rest)
      == Got(Splice(kind, a * TWO_30 + b as int * TWO_22 + c * TWO_15 + d as int * 128 + e), rest)
  {
    TakeBack([kind * 16 + a * 2 + 1, b, c * 2 + 1, d, e * 2 + 1], rest);
    SpliceFirst(kind, a);
    MarkedByte(c);
    MarkedByte(e);
  }

  lemma SpliceBack(s: Splice, rest: seq<byte>)
    requires s.kind < 16 && s.dts < TWO_33
    ensures ReadSplice(WriteSplice(s) + rest) == Got(s, rest)
  {
    DtsPieces(s.dts);
    SpliceAssembled(s, s.dts / TWO_30 % 8, s.dts / TWO_22 % 256, s.dts / TWO_15 % 128, s.dts / 128 % 256, s.dts % 128,
                    WriteSplice(s), rest);
  }

  lemma SpliceAssembled(s: Splice, a: nat, b: byte, c: nat, d: byte, e: nat, written: seq<byte>, rest: seq<byte>)
    requires s.kind < 16 && a < 8 && c < 128 && e < 128
    requires s.dts == a * TWO_30 + b as int * TWO_22 + c * TWO_15 + d as int * 128 + e
    requires written == [s.kind * 16 + a * 2 + 1, b, c * 2 + 1, d, e * 2 + 1]
    ensures ReadSplice(written + rest) == Got(s, rest)
  {
    SplicePieces(s.kind, a, b, c, d, e, rest);
  }

  function ExtensionFlags(e: Extension): byte {
    FlagByte([e.window.Some?, e.piecewiseRate.Some?, e.seamless.Some?, true, true, true, true, true])
  }

  function OptWindow(o: Option<Window>): (r: seq<byte>)
    ensures |r| == if o.Some? then 2 else 0
  {
    if o.Some? then WriteWindow(o.value) else []
  }

  function OptRate(o: Option<nat>): (r: seq<byte>)
    ensures |r| == if o.Some? then 3 else 0
  {
    if o.Some? then WriteRate(o.value) else []
  }

  function OptSplice(o: Option<Splice>): (r: seq<byte>)
    ensures |r| == if o.Some? then 5 else 0
  {
    if o.Some? then WriteSplice(o.value) else []
  }

  function WriteExtension(e: Extension): (r: seq<byte>)
    ensures |r| == 1 + ExtensionLength(e)
  {
    [ExtensionLength(e), ExtensionFlags(e)] + OptWindow(e.window) + OptRate(e.piecewiseRate) + OptSplice(e.seamless)
  }

  /** An extension of length 0 has no flags byte. */
  function ReadExtension(d: seq<byte>): Got<Extension> {
    match TakeByte(d)
    case Fail => Fail
    case Got(length, rest) =>
      if length == 0 then Got(Extension(None, None, None), rest) else ReadExtensionBody(rest)
  }

  function ReadExtensionBody(d: seq<byte>): Got<Extension> {
    match TakeByte(d)
    case Fail => Fail
    case Got(b, rest0) =>
      var flags := Bits(b, 8);
      match Maybe(flags[0], rest0, ReadWindow)
      case Fail => Fail
      case Got(window, rest1) =>
        match Maybe(flags[1], rest1, ReadRate)
        case Fail => Fail
        case Got(rate, rest2) =>
          match Maybe(flags[2], rest2, ReadSplice)
          case Fail => Fail
          case Got(seamless, rest3) => Got(Extension(window, rate, seamless), rest3)
  }

  lemma OptWindowBack(o: Option<Window>, rest: seq<byte>)
    requires o.Some? ==> o.value.offset < TWO_15
    ensures Maybe(o.Some?, OptWindow(o) + rest, ReadWindow) == Got(o, rest)
  {
    if o.Some? { WindowBack(o.value, rest); } else { assert [] + rest == rest; }
  }

  lemma OptRateBack(o: Option<nat>, rest: seq<byte>)
    requires o.Some? ==> o.value < TWO_22
    ensures Maybe(o.Some?, OptRate(o) + rest, ReadRate) == Got(o, rest)
  {
    if o.Some? { RateBack(o.value, rest); } else { assert [] + rest == rest; }
  }

  lemma OptSpliceBack(o: Option<Splice>, rest: seq<byte>)
    requires o.Some? ==> o.value.kind < 16 && o.value.dts < TWO_33
    ensures Maybe(o.Some?, OptSplice(o) + rest, ReadSplice) == Got(o, rest)
  {
    if o.Some? { SpliceBack(o.value, rest); } else { assert [] + rest == rest; }
  }

  lemma ExtensionBack(e: Extension, rest: seq<byte>)
    requires ExtensionOk(e)
    ensures ReadExtension(WriteExtension(e) + rest) == Got(e, rest)
  {
    var d2 := OptSplice(e.seamless) + rest;
    var d1 := OptRate(e.piecewiseRate) + d2;
    var d0 := OptWindow(e.window) + d1;
    assert WriteExtension(e) + rest == [ExtensionLength(e)] + ([ExtensionFlags(e)] + d0);
    TakeByteBack(ExtensionLength(e), [ExtensionFlags(e)] + d0);
    ExtensionBodyBack(e, rest);
  }

  lemma ExtensionBodyBack(e: Extension, rest: seq<byte>)
    requires ExtensionOk(e)
    ensures ReadExtensionBody([ExtensionFlags(e)] + (OptWindow(e.window) + (OptRate(e.piecewiseRate)
      + (OptSplice(e.seamless) + rest))))
      == Got(e, rest)
  {
    var d2 := OptSplice(e.seamless) + rest;
    var d1 := OptRate(e.piecewiseRate) + d2;
    TakeByteBack(ExtensionFlags(e), OptWindow(e.window) + d1);
    BitsInverse([e.window.Some?, e.piecewiseRate.Some?, e.seamless.Some?, true, true, true, true, true]);
    OptWindowBack(e.window, d1);
    OptRateBack(e.piecewiseRate, d2);
    OptSpliceBack(e.seamless, rest);
  }

  // ---- the field ----

  predicate FieldOk(f: Field) {
    && (f.pcr.Some? ==> ClockOk(f.pcr.value))
    && (f.opcr.Some? ==> ClockOk(f.opcr.value))
    && (f.countdown.Some? ==> f.countdown.value < 256)
    && (f.extension.Some? ==> ExtensionOk(f.extension.value))
  }

  function EmptyField(stuffing: int, oneByte: bool): Field {
    Field(false, false, false, None, None, None, None, None, stuffing, oneByte)
  }

  /** Bytes after adaptation_field_length, without stuffing. */
  function ContentLength(f: Field): (r: nat)
    ensures r >= 1
  {
    1 + ClockSize(f.pcr) + ClockSize(f.opcr) + CountdownSize(f.countdown) + PrivateSize(f.privateData)
      + ExtensionSize(f.extension)
  }

  function ClockSize(o: Option<Clock>): nat {
    if o.Some? then 6 else 0
  }

  function CountdownSize(o: Option<nat>): nat {
    if o.Some? then 1 else 0
  }

  function PrivateSize(o: Option<seq<byte>>): nat {
    if o.Some? then 1 + |o.value| else 0
  }

  function ExtensionSize(o: Option<Extension>): nat {
    if o.Some? then 1 + ExtensionLength(o.value) else 0
  }

  /** calcPacketAdaptationFieldLength, in uint8 arithmetic. */
  function ComputedLength(f: Field): byte {
    (ContentLength(f) + f.stuffing) % 256
  }

  function FlagList(f: Field): (r: seq<bool>)
    ensures |r| == 8
  {
    [f.discontinuity, f.randomAccess, f.priority, f.pcr.Some?, f.opcr.Some?, f.countdown.Some?,
     f.privateData.Some?, f.extension.Some?]
  }

  function Flags(f: Field): byte {
    FlagByte(FlagList(f))
  }

  function OptClock(o: Option<Clock>): (r: seq<byte>)
    ensures |r| == ClockSize(o)
  {
    if o.Some? then WriteClock(o.value) else []
  }

  function OptCountdown(o: Option<nat>): (r: seq<byte>)
    ensures |r| == CountdownSize(o)
  {
    if o.Some? then [o.value % 256] else []
  }

  function OptPrivate(o: Option<seq<byte>>): (r: seq<byte>)
    ensures |r| == PrivateSize(o)
  {
    if o.Some? then WritePrivate(o.value) else []
  }

  function OptExtension(o: Option<Extension>): (r: seq<byte>)
    ensures |r| == ExtensionSize(o)
  {
    if o.Some? then WriteExtension(o.value) else []
  }

  function Content(f: Field): (r: seq<byte>)
    ensures |r| == ContentLength(f)
  {
    [Flags(f)] + OptClock(f.pcr) + OptClock(f.opcr) + OptCountdown(f.countdown) + OptPrivate(f.privateData)
    + OptExtension(f.extension)
  }

  /** Stuffing bytes; a negative count writes none. */
  function Stuffing(n: int): (r: seq<byte>)
    ensures |r| == if n > 0 then n else 0
  {
    seq(if n > 0 then n else 0, _ => 0xFF)
  }

  /** writePacketAdaptationField */
  function WriteField(f: Field): seq<byte> {
    if f.oneByte then [0] else [ComputedLength(f)] + Content(f) + Stuffing(f.stuffing)
  }

  function ReadCountdown(d: seq<byte>): Got<nat> {
    match TakeByte(d)
    case Fail => Fail
    case Got(b, rest) => Got(b as int, rest)
  }

  /** The parts of a field, before its stuffing is known. */
  function ReadContent(d: seq<byte>): Got<Field> {
    match TakeByte(d)
    case Fail => Fail
    case Got(b, rest) => ReadParts(Bits(b, 8), rest)
  }

  function ReadParts(flags: seq<bool>, d: seq<byte>): Got<Field>
    requires |flags| == 8
  {
    match ReadClocks(flags, d)
    case Fail => Fail
    case Got(clocks, rest) =>
      match ReadOthers(flags, rest)
      case Fail => Fail
      case Got(others, last) =>
        Got(Field(flags[0], flags[1], flags[2], clocks.0, clocks.1, others.0, others.1, others.2, 0, false), last)
  }

  function ReadOthers(flags: seq<bool>, d: seq<byte>): Got<(Option<nat>, Option<seq<byte>>, Option<Extension>)>
    requires |flags| == 8
  {
    match Maybe(flags[5], d, ReadCountdown)
    case Fail => Fail
    case Got(countdown, rest) =>
      match ReadTail(flags, rest)
      case Fail => Fail
      case Got(tail, last) => Got((countdown, tail.0, tail.1), last)
  }

  function ReadClocks(flags: seq<bool>, d: seq<byte>): Got<(Option<Clock>, Option<Clock>)>
    requires |flags| == 8
  {
    match Maybe(flags[3], d, ReadClock)
    case Fail => Fail
    case Got(pcr, rest) =>
      match Maybe(flags[4], rest, ReadClock)
      case Fail => Fail
      case Got(opcr, last) => Got((pcr, opcr), last)
  }

  function ReadTail(flags: seq<bool>, d: seq<byte>): Got<(Option<seq<byte>>, Option<Extension>)>
    requires |flags| == 8
  {
    match Maybe(flags[6], d, ReadPrivate)
    case Fail => Fail
    case Got(privateData, rest) =>
      match Maybe(flags[7], rest, ReadExtension)
      case Fail => Fail
      case Got(extension, last) => Got((privateData, extension), last)
  }

  /** parsePacketAdaptationField and the payload offset: the stuffing is what the length
    * claims beyond the parts that were read, possibly less than nothing, and the payload
    * starts where the length says. */
  function ReadField(d: seq<byte>): Got<Field> {
    match TakeByte(d)
    case Fail => Fail
    case Got(length, body) =>
      if length == 0 then Got(EmptyField(0, true), body)
      else
        match ReadContent(body)
        case Fail => Fail
        case Got(f, rest) =>
          Got(f.(stuffing := length as int - (|body| - |rest|)), if length <= |body| then body[length..] else [])
  }

  // ---- reading undoes writing ----

  lemma OptClockBack(o: Option<Clock>, rest: seq<byte>)
    requires o.Some? ==> ClockOk(o.value)
    ensures Maybe(o.Some?, OptClock(o) + rest, ReadClock) == Got(o, rest)
  {
    if o.Some? { ClockBack(o.value, rest); } else { assert [] + rest == rest; }
  }

  lemma OptCountdownBack(o: Option<nat>, rest: seq<byte>)
    requires o.Some? ==> o.value < 256
    ensures Maybe(o.Some?, OptCountdown(o) + rest, ReadCountdown) == Got(o, rest)
  {
    if o.Some? { TakeByteBack(o.value % 256, rest); } else { assert [] + rest == rest; }
  }

  lemma OptPrivateBack(o: Option<seq<byte>>, rest: seq<byte>)
    requires o.Some? ==> |o.value| < 256
    ensures Maybe(o.Some?, OptPrivate(o) + rest, ReadPrivate) == Got(o, rest)
  {
    if o.Some? { PrivateBack(o.value, rest); } else { assert [] + rest == rest; }
  }

  lemma OptExtensionBack(o: Option<Extension>, rest: seq<byte>)
    requires o.Some? ==> ExtensionOk(o.value)
    ensures Maybe(o.Some?, OptExtension(o) + rest, ReadExtension) == Got(o, rest)
  {
    if o.Some? { ExtensionBack(o.value, rest); } else { assert [] + rest == rest; }
  }

  lemma TailBack(f: Field, rest: seq<byte>)
    requires FieldOk(f) && (f.privateData.Some? ==> |f.privateData.value| < 256)
    ensures ReadTail(FlagList(f), OptPrivate(f.privateData) + (OptExtension(f.extension) + rest))
      == Got((f.privateData, f.extension), rest)
  {
    OptPrivateBack(f.privateData, OptExtension(f.extension) + rest);
    OptExtensionBack(f.extension, rest);
  }

  lemma ContentBack(f: Field, rest: seq<byte>)
    requires FieldOk(f) && (f.privateData.Some? ==> |f.privateData.value| < 256)
    ensures ReadContent(Content(f) + rest) == Got(f.(stuffing := 0, oneByte := false), rest)
  {
    ContentParts(f, rest);
    TakeByteBack(Flags(f), Parts(f, rest));
    BitsInverse(FlagList(f));
    PartsBack(f, rest);
  }

  /** Content, associated to the right. */
  function Parts(f: Field, rest: seq<byte>): seq<byte> {
    OptClock(f.pcr) + (OptClock(f.opcr) + Others(f, rest))
  }

  function Others(f: Field, rest: seq<byte>): seq<byte> {
    OptCountdown(f.countdown) + (OptPrivate(f.privateData) + (OptExtension(f.extension) + rest))
  }

  lemma ContentParts(f: Field, rest: seq<byte>)
    ensures Content(f) + rest == [Flags(f)] + Parts(f, rest)
  {
    Associate([Flags(f)], OptClock(f.pcr), OptClock(f.opcr), OptCountdown(f.countdown),
              OptPrivate(f.privateData), OptExtension(f.extension), rest);
  }

  lemma Associate(a: seq<byte>, b: seq<byte>, c: seq<byte>, d: seq<byte>, e: seq<byte>, f: seq<byte>, g: seq<byte>)
    ensures a + b + c + d + e + f + g == a + (b + (c + (d + (e + (f + g)))))
  {
  }

  lemma ClocksBack(f: Field, rest: seq<byte>)
    requires FieldOk(f)
    ensures ReadClocks(FlagList(f), OptClock(f.pcr) + (OptClock(f.opcr) + rest)) == Got((f.pcr, f.opcr), rest)
  {
    OptClockBack(f.pcr, OptClock(f.opcr) + rest);
    OptClockBack(f.opcr, rest);
  }

  lemma OthersBack(f: Field, rest: seq<byte>)
    requires FieldOk(f) && (f.privateData.Some? ==> |f.privateData.value| < 256)
    ensures ReadOthers(FlagList(f), Others(f, rest)) == Got((f.countdown, f.privateData, f.extension), rest)
  {
    OptCountdownBack(f.countdown, OptPrivate(f.privateData) + (OptExtension(f.extension) + rest));
    TailBack(f, rest);
  }

  lemma PartsBack(f: Field, rest: seq<byte>)
    requires FieldOk(f) && (f.privateData.Some? ==> |f.privateData.value| < 256)
    ensures ReadParts(FlagList(f), Parts(f, rest)) == Got(f.(stuffing := 0, oneByte := false), rest)
  {
    ClocksBack(f, Others(f, rest));
    OthersBack(f, rest);
  }

  /** What one uint8 length byte can announce. */
  predicate Fits(f: Field) {
    if f.oneByte then f == EmptyField(0, true) else f.stuffing >= 0 && ContentLength(f) + f.stuffing < 256
  }

  lemma BodyCut(length: seq<byte>, content: seq<byte>, stuffing: seq<byte>, payload: seq<byte>)
    ensures length + content + stuffing + payload == length + (content + (stuffing + payload))
    ensures (content + (stuffing + payload))[|content| + |stuffing|..] == payload
  {
  }

  /** What is read after the length byte, given what the parts read as. */
  lemma LengthBack(n: byte, body: seq<byte>, f: Field, rest: seq<byte>)
    requires 0 < n as int <= |body| && ReadContent(body) == Got(f, rest)
    ensures ReadField([n] + body) == Got(f.(stuffing := n as int - (|body| - |rest|)), body[n..])
  {
    TakeByteBack(n, body);
  }

  lemma FieldBytes(f: Field, payload: seq<byte>)
    requires Fits(f) && !f.oneByte
    ensures WriteField(f) + payload
      == [ContentLength(f) + f.stuffing] + (Content(f) + (Stuffing(f.stuffing) + payload))
  {
    BodyCut([ContentLength(f) + f.stuffing], Content(f), Stuffing(f.stuffing), payload);
  }

  /** A field that fits is read back unchanged, 33-bit clocks and all; what follows it
    * is the payload. */
  lemma FieldBack(f: Field, payload: seq<byte>)
    requires FieldOk(f) && Fits(f)
    ensures ReadField(WriteField(f) + payload) == Got(f, payload)
  {
    if f.oneByte {
      TakeByteBack(0, payload);
    } else {
      PaddedBack(f, Content(f), Stuffing(f.stuffing), payload);
      FieldBytes(f, payload);
    }
  }

  lemma PaddedBack(f: Field, content: seq<byte>, stuffing: seq<byte>, payload: seq<byte>)
    requires FieldOk(f) && Fits(f) && !f.oneByte && |stuffing| == f.stuffing && content == Content(f)
    ensures ReadField([|content| + |stuffing|] + (content + (stuffing + payload))) == Got(f, payload)
  {
    ContentBack(f, stuffing + payload);
    SameField(f);
    StuffingBack(content, stuffing, payload, f.(stuffing := 0, oneByte := false));
  }

  lemma SameField(f: Field)
    requires !f.oneByte
    ensures f.(stuffing := 0, oneByte := false).(stuffing := f.stuffing) == f
  {
  }

  /** Stuffing is what the length claims beyond the parts. */
  lemma StuffingBack(content: seq<byte>, stuffing: seq<byte>, payload: seq<byte>, f: Field)
    requires content != [] && |content| + |stuffing| < 256
    requires ReadContent(content + (stuffing + payload)) == Got(f, stuffing + payload)
    ensures ReadField([|content| + |stuffing|] + (content + (stuffing + payload)))
      == Got(f.(stuffing := |stuffing|), payload)
  {
    BodyCut([], content, stuffing, payload);
    LengthBack(|content| + |stuffing|, content + (stuffing + payload), f, stuffing + payload);
  }

  // ---- sizes ----

  /** HasAdaptationFieldData: more than stuffing. */
  predicate HasData(f: Field)
    ensures HasData(f) <==> Strip(f) != EmptyField(0, false)
  {
    f.discontinuity || f.randomAccess || f.priority || f.pcr.Some? || f.opcr.Some? || f.countdown.Some?
    || f.privateData.Some? || f.extension.Some?
  }

  /** CloneAdaptationFieldWithoutStuffing */
  function Strip(f: Field): Field {
    f.(stuffing := 0, oneByte := false)
  }

  /** Without stuffing a field still says the same. */
  lemma StripKeeps(f: Field)
    ensures var g := Strip(f);
      && g.discontinuity == f.discontinuity && g.randomAccess == f.randomAccess && g.priority == f.priority
      && g.pcr == f.pcr && g.opcr == f.opcr && g.countdown == f.countdown
      && g.privateData == f.privateData && g.extension == f.extension
  {
  }

  /** AdaptationFieldSizeWithoutStuffing, with its uint8 arithmetic. */
  function BareSize(f: Field): nat {
    1 + ComputedLength(Strip(f))
  }

  /** NewStuffingAdaptationField */
  function StuffingField(size: int): Option<Field> {
    if size < 1 || size > BODY then None
    else if size == 1 then Some(EmptyField(0, true))
    else Some(EmptyField(size - 2, false))
  }

  /** AdaptationFieldWithSize for a field that is present. */
  function WithSize(f: Field, size: int): Option<Field> {
    if size < BareSize(f) || size > BODY then None else Some(Strip(f).(stuffing := size - BareSize(f)))
  }

  /** No length computation wraps. */
  predicate NoWrap(f: Field) {
    ContentLength(f) < 256
  }

  lemma BareOnWire(f: Field)
    requires NoWrap(f)
    ensures BareSize(f) == |WriteField(Strip(f))|
  {
  }

  /** Every legal size is hit exactly, by a field that says the same. */
  lemma WithSizeExact(f: Field, size: int)
    requires NoWrap(f)
    ensures WithSize(f, size).Some? <==> 1 + ContentLength(f) <= size <= BODY
    ensures WithSize(f, size).Some? ==>
      var g := WithSize(f, size).value;
      Fits(g) && |WriteField(g)| == size && Strip(g) == Strip(f)
  {
  }

  lemma StuffingFieldExact(size: int)
    ensures StuffingField(size).Some? <==> 1 <= size <= BODY
    ensures StuffingField(size).Some? ==>
      var g := StuffingField(size).value;
      Fits(g) && FieldOk(g) && |WriteField(g)| == size && !HasData(g)
  {
  }

  // ---- fields that were parsed ----

  /** The bytes a parsed extension takes again: one more than it was read from when its
    * length was 0, otherwise as many. */
  lemma ExtensionUses(d: seq<byte>)
    requires ReadExtension(d).Got?
    ensures var r := ReadExtension(d);
      |r.rest| + 1 + ExtensionLength(r.value) <= |d| + 1
  {
  }

  /** A field parsed from a packet body of at most 184 bytes never wraps, however its
    * own length byte lies: its parts take at most one byte more than they were read from. */
  lemma ParsedNoWrap(d: seq<byte>)
    requires |d| <= BODY && ReadField(d).Got?
    ensures ContentLength(ReadField(d).value) <= BODY
    ensures NoWrap(ReadField(d).value)
  {
    if d[0] != 0 {
      var body := d[1..];
      ContentUses(body);
    }
  }

  lemma ContentUses(d: seq<byte>)
    requires ReadContent(d).Got?
    ensures var r := ReadContent(d);
      |r.rest| + ContentLength(r.value) <= |d| + 1
  {
    var flags := Bits(d[0], 8);
    var r1 := ReadClocks(flags, d[1..]);
    var r2 := Maybe(flags[5], r1.rest, ReadCountdown);
    TailUses(flags, r2.rest);
  }

  lemma TailUses(flags: seq<bool>, d: seq<byte>)
    requires |flags| == 8 && ReadTail(flags, d).Got?
    ensures var r := ReadTail(flags, d);
      |r.rest| + PrivateSize(r.value.0) + ExtensionSize(r.value.1) <= |d| + 1
  {
    var r0 := Maybe(flags[6], d, ReadPrivate);
    if flags[7] {
      ExtensionUses(r0.rest);
    }
  }

  lemma {:induction false} FromBigEndianBound(b: seq<byte>)
    ensures FromBigEndian(b) < Pow256(|b|)
  {
    if b != [] {
      FromBigEndianBound(b[..|b| - 1]);
    }
  }

  lemma ReadClockOk(d: seq<byte>)
    requires ReadClock(d).Got?
    ensures ClockOk(ReadClock(d).value)
  {
    FromBigEndianBound(d[..6]);
    assert Pow256(6) == 0x1_0000_0000_0000 by {
      assert Pow256(2) == 65536;
      assert Pow256(4) == 0x1_0000_0000;
    }
  }

  lemma ReadSpliceOk(d: seq<byte>)
    requires ReadSplice(d).Got?
    ensures ReadSplice(d).value.kind < 16 && ReadSplice(d).value.dts < TWO_33
  {
  }

  lemma ReadExtensionOk(d: seq<byte>)
    requires ReadExtension(d).Got?
    ensures ExtensionOk(ReadExtension(d).value)
  {
    if d[0] != 0 {
      var body := d[1..];
      var flags := Bits(body[0], 8);
      var r0 := Maybe(flags[0], body[1..], ReadWindow);
      var r1 := Maybe(flags[1], r0.rest, ReadRate);
      if flags[2] {
        ReadSpliceOk(r1.rest);
      }
    }
  }

  /** Every parsed field has numbers that its places can hold. */
  lemma ParsedOk(d: seq<byte>)
    requires ReadField(d).Got?
    ensures FieldOk(ReadField(d).value)
  {
    if d[0] != 0 {
      ContentOk(d[1..]);
    }
  }

  lemma ClocksOk(flags: seq<bool>, d: seq<byte>)
    requires |flags| == 8 && ReadClocks(flags, d).Got?
    ensures var r := ReadClocks(flags, d).value;
      (r.0.Some? ==> ClockOk(r.0.value)) && (r.1.Some? ==> ClockOk(r.1.value))
  {
    if flags[3] { ReadClockOk(d); }
    if flags[4] { ReadClockOk(Maybe(flags[3], d, ReadClock).rest); }
  }

  lemma OthersOk(flags: seq<bool>, d: seq<byte>)
    requires |flags| == 8 && ReadOthers(flags, d).Got?
    ensures var r := ReadOthers(flags, d).value;
      (r.0.Some? ==> r.0.value < 256) && (r.2.Some? ==> ExtensionOk(r.2.value))
  {
    var r0 := Maybe(flags[5], d, ReadCountdown);
    var r1 := Maybe(flags[6], r0.rest, ReadPrivate);
    if flags[7] { ReadExtensionOk(r1.rest); }
  }

  lemma ContentOk(d: seq<byte>)
    requires ReadContent(d).Got?
    ensures FieldOk(ReadContent(d).value)
  {
    var flags := Bits(d[0], 8);
    ClocksOk(flags, d[1..]);
    OthersOk(flags, ReadClocks(flags, d[1..]).rest);
  }
}
