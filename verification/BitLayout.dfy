/** Transport packets, adaptation fields and PMT sections as strings of bits, the way the tables of
  * ISO/IEC 13818-1 lay them out (2.4.3.2, 2.4.3.4, 2.4.4.8), and that the bytes that are written are
  * those bits.
  */
module BitLayout {
  import opened Bytes
  import opened Wrappers
  import opened AdaptationField
  import opened Packets
  import P = PsiSections
  import C = Crc

  function Ones(n: nat): (r: seq<bool>)
    ensures |r| == n
  {
    seq(n, _ => true)
  }

  // ---- numbers packed next to each other ----

  /** Two numbers side by side. */
  lemma {:induction false} Pack(a: nat, b: nat, wa: nat, wb: nat)
    requires b < Pow2(wb)
    ensures Bits(a * Pow2(wb) + b, wa + wb) == Bits(a, wa) + Bits(b, wb)
    decreases wb
  {
    if wb == 0 {
      assert Bits(a, wa) + [] == Bits(a, wa);
    } else {
      var n, half := a * Pow2(wb) + b, a * Pow2(wb - 1);
      assert a * Pow2(wb) == 2 * half;
      assert n / 2 == half + b / 2 && n % 2 == b % 2;
      Pack(a, b / 2, wa, wb - 1);
    }
  }

  lemma Powers()
    ensures Pow2(1) == 2 && Pow2(2) == 4 && Pow2(3) == 8 && Pow2(4) == 16 && Pow2(5) == 32 && Pow2(6) == 64
    ensures Pow2(7) == 128 && Pow2(8) == 256 && Pow2(9) == 512 && Pow2(13) == 8192 && Pow2(15) == 32768
    ensures Pow2(12) == 4096 && Pow2(16) == 65536
  {
    assert Pow2(8) == 256;
    assert Pow2(12) == 4096;
    assert Pow2(15) == 32768;
  }

  lemma PackIs(n: nat, a: nat, b: nat, wa: nat, wb: nat)
    requires n == a * Pow2(wb) + b && b < Pow2(wb)
    ensures Bits(n, wa + wb) == Bits(a, wa) + Bits(b, wb)
  {
    Pack(a, b, wa, wb);
  }

  lemma OneBit(b: bool)
    ensures Bits(Bit(b), 1) == [b]
  {
    assert Bits(Bit(b) / 2, 0) == [];
  }

  lemma {:induction false} AllOnes(n: nat)
    ensures Bits(Pow2(n) - 1, n) == Ones(n)
    decreases n
  {
    if n > 0 {
      AllOnes(n - 1);
      assert (Pow2(n) - 1) / 2 == Pow2(n - 1) - 1 && (Pow2(n) - 1) % 2 == 1;
      assert Ones(n - 1) + [true] == Ones(n);
    }
  }

  /** Two bytes as one number of 16 bits. */
  lemma TwoBytes(a: byte, b: byte)
    ensures C.MessageBits([a, b]) == Bits(a as int * 256 + b as int, 16)
  {
    hide Bits, C.MessageBits, Pow2, Ones;
    Powers();
    C.MessageConcat([a], [b]);
    assert [a] + [b] == [a, b];
    C.OneByte(a);
    C.OneByte(b);
    Pack(a, b, 8, 8);
  }

  /** Most significant byte first. */
  lemma {:induction false} BigEndianBits(n: nat, width: nat)
    ensures C.MessageBits(BigEndian(n, width)) == Bits(n, 8 * width)
    decreases width
  {
    if width > 0 {
      Powers();
      BigEndianBits(n / 256, width - 1);
      C.MessageConcat(BigEndian(n / 256, width - 1), [n % 256]);
      C.OneByte(n % 256);
      assert n == n / 256 * Pow2(8) + n % 256;
      PackIs(n, n / 256, n % 256, 8 * (width - 1), 8);
    }
  }

  // ---- the packet header ----

  /** transport_error_indicator, payload_unit_start_indicator, transport_priority, PID,
    * transport_scrambling_control, adaptation_field_control, continuity_counter. */
  function HeaderBits(p: Packet): seq<bool> {
    [p.errorIndicator, p.pusi, p.priority] + Bits(p.pid, 13) + Bits(p.scrambling, 2)
    + [p.adaptation.Some?, p.hasPayload] + Bits(p.cc, 4)
  }

  lemma FirstHalf(p: Packet)
    requires p.pid < 0x2000
    ensures var h := WriteHeader(p);
      C.MessageBits(h[..2]) == [p.errorIndicator, p.pusi, p.priority] + Bits(p.pid, 13)
  {
    hide Bits, C.MessageBits, Pow2, Ones;
    Powers();
    var h := WriteHeader(p);
    var flags := Bit(p.errorIndicator) * 4 + Bit(p.pusi) * 2 + Bit(p.priority);
    assert h[..2] == [h[0], h[1]];
    TwoBytes(h[0], h[1]);
    ThreeFlags(p.errorIndicator, p.pusi, p.priority);
    assert h[0] as int * 256 + h[1] as int == flags * 8192 + p.pid;
    PackIs(h[0] as int * 256 + h[1] as int, flags, p.pid, 3, 13);
  }

  lemma ThreeFlags(a: bool, b: bool, c: bool)
    ensures Bits(Bit(a) * 4 + Bit(b) * 2 + Bit(c), 3) == [a, b, c]
  {
    TwoFlags(a, b);
    var n := Bit(a) * 4 + Bit(b) * 2 + Bit(c);
    assert n / 2 == Bit(a) * 2 + Bit(b) && (n % 2 == 1 <==> c);
  }

  lemma TwoFlags(a: bool, b: bool)
    ensures Bits(Bit(a) * 2 + Bit(b), 2) == [a, b]
  {
    OneBit(a);
    var n := Bit(a) * 2 + Bit(b);
    assert n / 2 == Bit(a) && (n % 2 == 1 <==> b);
  }

  lemma ThirdByteBits(p: Packet)
    requires p.scrambling < 4 && p.cc < 16
    ensures Bits(WriteHeader(p)[2], 8) == Bits(p.scrambling, 2) + [p.adaptation.Some?, p.hasPayload] + Bits(p.cc, 4)
  {
    hide Bits, C.MessageBits, Pow2, Ones;
    Powers();
    var b := WriteHeader(p)[2];
    var flags := Bit(p.adaptation.Some?) * 2 + Bit(p.hasPayload);
    PackIs(b, p.scrambling * 4 + flags, p.cc, 4, 4);
    PackIs(p.scrambling * 4 + flags, p.scrambling, flags, 2, 2);
    TwoFlags(p.adaptation.Some?, p.hasPayload);
  }

  lemma HeaderLayout(p: Packet)
    requires PacketOk(p)
    ensures C.MessageBits(WriteHeader(p)) == HeaderBits(p)
  {
    var h := WriteHeader(p);
    FirstHalf(p);
    ThirdByteBits(p);
    assert h == h[..2] + [h[2]];
    C.MessageConcat(h[..2], [h[2]]);
    C.OneByte(h[2]);
  }

  /** A packet that is full takes 188 bytes: the sync byte 47, the header, the adaptation field if it
    * has one, and the payload. */
  lemma PacketLayout(p: Packet)
    requires PacketOk(p) && Used(p) == 188
    ensures Serialize(p).Some?
    ensures var d := Serialize(p).value;
      && |d| == 188 && d[0] == 0x47 && C.MessageBits(d[1..4]) == HeaderBits(p)
      && d[4..] == (if p.adaptation.Some? then WriteField(p.adaptation.value) else []) + p.payload
  {
    hide WriteField, WriteHeader, C.MessageBits, HeaderBits;
    HeaderLayout(p);
    var d := Serialize(p).value;
    assert d[1..4] == WriteHeader(p);
  }

  // ---- the adaptation field ----

  /** program_clock_reference_base, reserved bits, program_clock_reference_extension. */
  function ClockBits(o: Option<Clock>): seq<bool> {
    if o.Some? then Bits(o.value.base, 33) + Ones(6) + Bits(o.value.extension, 9) else []
  }

  function CountdownBits(o: Option<nat>): seq<bool> {
    if o.Some? then Bits(o.value, 8) else []
  }

  function PrivateBits(o: Option<seq<byte>>): seq<bool> {
    if o.Some? then Bits(|o.value|, 8) + C.MessageBits(o.value) else []
  }

  /** ltw_valid_flag and ltw_offset. */
  function WindowBits(o: Option<Window>): seq<bool> {
    if o.Some? then [o.value.valid] + Bits(o.value.offset, 15) else []
  }

  function RateBits(o: Option<nat>): seq<bool> {
    if o.Some? then Ones(2) + Bits(o.value, 22) else []
  }

  /** splice_type and DTS_next_AU in three pieces, a marker bit behind each. */
  function SpliceBits(o: Option<Splice>): seq<bool> {
    if o.None? then []
    else
      var dts := o.value.dts;
      Bits(o.value.kind, 4) + Bits(dts / 0x4000_0000, 3) + [true] + Bits(dts / 0x8000 % 0x8000, 15) + [true]
      + Bits(dts % 0x8000, 15) + [true]
  }

  function ExtensionBits(o: Option<Extension>): seq<bool> {
    if o.None? then []
    else
      var e := o.value;
      var parts := WindowBits(e.window) + RateBits(e.piecewiseRate) + SpliceBits(e.seamless);
      Bits(1 + |parts| / 8, 8) + [e.window.Some?, e.piecewiseRate.Some?, e.seamless.Some?] + Ones(5) + parts
  }

  /** discontinuity_indicator, random_access_indicator, elementary_stream_priority_indicator, and
    * which of the optional parts follow; then these parts, and stuffing of ones. */
  function FieldBits(f: Field, length: nat): seq<bool>
    requires f.stuffing >= 0
  {
    Bits(length, 8)
    + [f.discontinuity, f.randomAccess, f.priority, f.pcr.Some?, f.opcr.Some?, f.countdown.Some?,
       f.privateData.Some?, f.extension.Some?]
    + ClockBits(f.pcr) + ClockBits(f.opcr) + CountdownBits(f.countdown) + PrivateBits(f.privateData)
    + ExtensionBits(f.extension) + Ones(8 * f.stuffing)
  }

  lemma ClockLayout(o: Option<Clock>)
    requires o.Some? ==> ClockOk(o.value)
    ensures C.MessageBits(OptClock(o)) == ClockBits(o)
  {
    hide Bits, C.MessageBits, Pow2, Ones, BigEndian;
    if o.Some? {
      Powers();
      var c := o.value;
      var n := c.base * 0x8000 + 0x3F * 512 + c.extension;
      BigEndianBits(n, 6);
      PackIs(n, c.base * 64 + 63, c.extension, 39, 9);
      PackIs(c.base * 64 + 63, c.base, 63, 33, 6);
      AllOnes(6);
    }
  }

  lemma CountdownLayout(o: Option<nat>)
    requires o.Some? ==> o.value < 256
    ensures C.MessageBits(OptCountdown(o)) == CountdownBits(o)
  {
    hide Bits, C.MessageBits, Pow2, Ones;
    if o.Some? {
      C.OneByte(o.value);
    }
  }

  lemma PrivateLayout(o: Option<seq<byte>>)
    requires o.Some? ==> |o.value| < 256
    ensures C.MessageBits(OptPrivate(o)) == PrivateBits(o)
  {
    hide Bits, C.MessageBits, Pow2, Ones;
    if o.Some? {
      C.MessageConcat([|o.value|], o.value);
      C.OneByte(|o.value|);
    }
  }

  lemma WindowLayout(o: Option<Window>)
    requires o.Some? ==> o.value.offset < 0x8000
    ensures C.MessageBits(OptWindow(o)) == WindowBits(o) && |WindowBits(o)| == 8 * |OptWindow(o)|
  {
    hide Bits, C.MessageBits, Pow2, Ones;
    if o.Some? {
      Powers();
      var w := o.value;
      var b := WriteWindow(w);
      var n := b[0] as int * 256 + b[1] as int;
      assert b == [b[0], b[1]];
      TwoBytes(b[0], b[1]);
      assert n == Bit(w.valid) * 0x8000 + w.offset;
      PackIs(n, Bit(w.valid), w.offset, 1, 15);
      OneBit(w.valid);
    }
  }

  lemma RateLayout(o: Option<nat>)
    requires o.Some? ==> o.value < 0x40_0000
    ensures C.MessageBits(OptRate(o)) == RateBits(o) && |RateBits(o)| == 8 * |OptRate(o)|
  {
    hide Bits, C.MessageBits, Pow2, Ones;
    if o.Some? {
      Powers();
      var n := o.value;
      var b := WriteRate(n);
      assert b == [b[0]] + [b[1], b[2]];
      C.MessageConcat([b[0]], [b[1], b[2]]);
      C.OneByte(b[0]);
      TwoBytes(b[1], b[2]);
      var high, low := n / 65536, n % 65536;
      assert b[1] as int * 256 + b[2] as int == low && b[0] as int == 192 + high;
      PackIs(b[0], 3, high, 2, 6);
      AllOnes(2);
      PackIs(n, high, low, 6, 16);
    }
  }

  /** A number of 15 bits and a marker bit, in two bytes. */
  lemma Marked(n: nat, a: byte, b: byte)
    requires n < 0x8000 && a as int == n / 128 && b as int == n % 128 * 2 + 1
    ensures C.MessageBits([a, b]) == Bits(n, 15) + [true]
  {
    hide Bits, C.MessageBits, Pow2;
    Powers();
    TwoBytes(a, b);
    PackIs(a as int * 256 + b as int, n, 1, 15, 1);
    OneBit(true);
  }

  lemma SplicePieces(dts: nat)
    requires dts < TWO_33
    ensures dts / 0x4000_0000 < 8 && dts / TWO_30 % 8 == dts / 0x4000_0000
    ensures dts / TWO_22 % 256 == dts / 0x8000 % 0x8000 / 128 && dts / TWO_15 % 128 == dts / 0x8000 % 0x8000 % 128
    ensures dts / 128 % 256 == dts % 0x8000 / 128 && dts % 128 == dts % 0x8000 % 128
  {
    var a, b := dts / 0x8000, dts % 0x8000;
    assert dts == a * 0x8000 + b;
    assert dts / 128 == a * 256 + b / 128;
    assert a / 128 == dts / TWO_22;
    assert a == a / 0x8000 * 0x8000 + a % 0x8000;
    assert a / 128 == a / 0x8000 * 256 + a % 0x8000 / 128;
  }

  lemma SpliceLayout(o: Option<Splice>)
    requires o.Some? ==> o.value.kind < 16 && o.value.dts < TWO_33
    ensures C.MessageBits(OptSplice(o)) == SpliceBits(o) && |SpliceBits(o)| == 8 * |OptSplice(o)|
  {
    hide Bits, C.MessageBits, Pow2;
    if o.Some? {
      Powers();
      var kind, dts := o.value.kind, o.value.dts;
      SplicePieces(dts);
      var b := WriteSplice(o.value);
      var top := dts / 0x4000_0000;
      assert b == [b[0]] + [b[1], b[2]] + [b[3], b[4]];
      C.MessageConcat([b[0]] + [b[1], b[2]], [b[3], b[4]]);
      C.MessageConcat([b[0]], [b[1], b[2]]);
      C.OneByte(b[0]);
      PackIs(b[0], kind, top * 2 + 1, 4, 4);
      PackIs(top * 2 + 1, top, 1, 3, 1);
      OneBit(true);
      Marked(dts / 0x8000 % 0x8000, b[1], b[2]);
      Marked(dts % 0x8000, b[3], b[4]);
    }
  }

  lemma ExtensionLayout(o: Option<Extension>)
    requires o.Some? ==> ExtensionOk(o.value)
    ensures C.MessageBits(OptExtension(o)) == ExtensionBits(o)
  {
    hide Bits, C.MessageBits, Ones, WindowBits, RateBits, SpliceBits, OptWindow, OptRate, OptSplice, WriteExtension;
    if o.Some? {
      var e := o.value;
      WindowLayout(e.window);
      RateLayout(e.piecewiseRate);
      SpliceLayout(e.seamless);
      ExtensionParts(e);
      var x, y, z := WindowBits(e.window), RateBits(e.piecewiseRate), SpliceBits(e.seamless);
      assert 8 * ExtensionLength(e) == 8 + |x + y + z|;
      ExtensionGroup(Bits(ExtensionLength(e), 8), [e.window.Some?, e.piecewiseRate.Some?, e.seamless.Some?], Ones(5),
                     x, y, z);
    }
  }

  lemma ExtensionParts(e: Extension)
    ensures C.MessageBits(WriteExtension(e)) ==
      Bits(ExtensionLength(e), 8) + ([e.window.Some?, e.piecewiseRate.Some?, e.seamless.Some?] + Ones(5))
      + C.MessageBits(OptWindow(e.window)) + C.MessageBits(OptRate(e.piecewiseRate))
      + C.MessageBits(OptSplice(e.seamless))
  {
    hide Bits, C.MessageBits, Ones, OptWindow, OptRate, OptSplice;
    var length, flags := ExtensionLength(e), ExtensionFlags(e);
    var w, r, p := OptWindow(e.window), OptRate(e.piecewiseRate), OptSplice(e.seamless);
    C.MessageConcat([length, flags] + w + r, p);
    C.MessageConcat([length, flags] + w, r);
    C.MessageConcat([length, flags], w);
    C.MessageConcat([length], [flags]);
    assert [length] + [flags] == [length, flags];
    C.OneByte(length);
    C.OneByte(flags);
    var bits := [e.window.Some?, e.piecewiseRate.Some?, e.seamless.Some?];
    C.ByteBits(bits + [true, true, true, true, true]);
    assert bits + [true, true, true, true, true]
      == [e.window.Some?, e.piecewiseRate.Some?, e.seamless.Some?, true, true, true, true, true];
    FiveOnes();
  }

  lemma ExtensionGroup(a: seq<bool>, b: seq<bool>, c: seq<bool>, x: seq<bool>, y: seq<bool>, z: seq<bool>)
    ensures a + (b + c) + x + y + z == a + b + c + (x + y + z)
  {
  }

  lemma FiveOnes()
    ensures Ones(5) == [true, true, true, true, true]
  {
  }

  lemma {:induction false} StuffingLayout(n: nat)
    ensures C.MessageBits(Stuffing(n)) == Ones(8 * n)
    decreases n
  {
    if n > 0 {
      assert Stuffing(n) == [0xFF] + Stuffing(n - 1);
      C.MessageConcat([0xFF], Stuffing(n - 1));
      StuffingLayout(n - 1);
      C.OneByte(0xFF);
      Powers();
      AllOnes(8);
      assert Ones(8) + Ones(8 * (n - 1)) == Ones(8 * n);
    }
  }

  /** An adaptation field is the length of what follows and then these bits; one of a single byte is
    * only the length 0. */
  lemma FieldLayout(f: Field)
    requires FieldOk(f) && Fits(f)
    ensures f.oneByte ==> WriteField(f) == [0]
    ensures !f.oneByte ==>
      f.stuffing >= 0 && C.MessageBits(WriteField(f)) == FieldBits(f, |WriteField(f)| - 1)
  {
    hide Bits, C.MessageBits, Ones, ClockBits, CountdownBits, PrivateBits, ExtensionBits, OptClock, OptCountdown,
      OptPrivate, OptExtension;
    if !f.oneByte {
      ClockLayout(f.pcr);
      ClockLayout(f.opcr);
      CountdownLayout(f.countdown);
      PrivateLayout(f.privateData);
      ExtensionLayout(f.extension);
      StuffingLayout(f.stuffing);
      var c := Content(f);
      ContentLayout(f);
      C.MessageConcat([ComputedLength(f)] + c, Stuffing(f.stuffing));
      C.MessageConcat([ComputedLength(f)], c);
      C.OneByte(ComputedLength(f));
      assert ComputedLength(f) as int == |WriteField(f)| - 1;
      Regroup(Bits(ComputedLength(f), 8), FlagList(f), ClockBits(f.pcr), ClockBits(f.opcr), CountdownBits(f.countdown),
              PrivateBits(f.privateData), ExtensionBits(f.extension), Ones(8 * f.stuffing));
    }
  }

  lemma Regroup(a: seq<bool>, b: seq<bool>, c: seq<bool>, d: seq<bool>, e: seq<bool>, f: seq<bool>, g: seq<bool>,
                h: seq<bool>)
    ensures a + (b + c + d + e + f + g) + h == a + b + c + d + e + f + g + h
  {
  }

  lemma ContentLayout(f: Field)
    ensures C.MessageBits(Content(f)) == FlagList(f) + C.MessageBits(OptClock(f.pcr)) + C.MessageBits(OptClock(f.opcr))
      + C.MessageBits(OptCountdown(f.countdown)) + C.MessageBits(OptPrivate(f.privateData))
      + C.MessageBits(OptExtension(f.extension))
  {
    hide Bits, C.MessageBits, OptClock, OptCountdown, OptPrivate, OptExtension;
    var a, b, c, d, e := OptClock(f.pcr), OptClock(f.opcr), OptCountdown(f.countdown), OptPrivate(f.privateData),
      OptExtension(f.extension);
    C.MessageConcat([Flags(f)] + a + b + c + d, e);
    C.MessageConcat([Flags(f)] + a + b + c, d);
    C.MessageConcat([Flags(f)] + a + b, c);
    C.MessageConcat([Flags(f)] + a, b);
    C.MessageConcat([Flags(f)], a);
    C.OneByte(Flags(f));
    C.ByteBits(FlagList(f));
  }

  // ---- PMT sections ----

  /** descriptor_tag, descriptor_length, and the descriptor. */
  function DescriptorBits(d: P.Descriptor): seq<bool> {
    match d
    case NoContent(tag) => Bits(tag, 8) + Bits(0, 8)
    case Registration(_, format, info) =>
      Bits(0x05, 8) + Bits(4 + |info|, 8) + (Bits(format, 32) + C.MessageBits(info))
    case PrivateDataIndicator(_, indicator) => Bits(0x0F, 8) + Bits(4, 8) + Bits(indicator, 32)
    case UserDefined(tag, _, data) => Bits(tag, 8) + Bits(|data|, 8) + C.MessageBits(data)
    case Unknown(tag, _, data) => Bits(tag, 8) + Bits(|data|, 8) + C.MessageBits(data)
    case Known(tag, _, data) => Bits(tag, 8) + Bits(|data|, 8) + C.MessageBits(data)
  }

  function DescriptorsBits(ds: seq<P.Descriptor>): seq<bool> {
    if ds == [] then [] else DescriptorBits(ds[0]) + DescriptorsBits(ds[1..])
  }

  /** Reserved bits, the length of the loop, the loop. */
  function LoopBits(ds: seq<P.Descriptor>): seq<bool> {
    Ones(4) + Bits(|DescriptorsBits(ds)| / 8, 12) + DescriptorsBits(ds)
  }

  /** stream_type, reserved bits, elementary_PID, and the descriptors. */
  function StreamBits(s: P.ElementaryStream): seq<bool> {
    Bits(s.streamType, 8) + Ones(3) + Bits(s.pid, 13) + LoopBits(s.descriptors)
  }

  function StreamsBits(ss: seq<P.ElementaryStream>): seq<bool> {
    if ss == [] then [] else StreamBits(ss[0]) + StreamsBits(ss[1..])
  }

  /** table_id, section_syntax_indicator, private bit, reserved bits, section_length; program_number,
    * reserved bits, version_number, current_next_indicator, section_number, last_section_number;
    * reserved bits, PCR_PID, the program's descriptors and the streams. */
  function SectionBits(s: P.Section, x: P.Syntax, length: nat): seq<bool> {
    (Bits(0x02, 8) + [s.syntaxIndicator, s.privateBit] + Ones(2) + Bits(length, 12))
    + (Bits(x.pmt.programNumber, 16) + Ones(2) + Bits(x.version, 5) + [x.current] + Bits(x.number, 8) + Bits(x.last, 8))
    + (Ones(3) + Bits(x.pmt.pcrPID, 13) + LoopBits(x.pmt.descriptors) + StreamsBits(x.pmt.streams))
  }

  lemma TagAndLength(tag: byte, n: byte, content: seq<byte>)
    ensures C.MessageBits([tag, n] + content) == Bits(tag, 8) + Bits(n, 8) + C.MessageBits(content)
  {
    hide Bits, C.MessageBits;
    C.MessageConcat([tag, n], content);
    C.MessageConcat([tag], [n]);
    assert [tag] + [n] == [tag, n];
    C.OneByte(tag);
    C.OneByte(n);
  }

  lemma DescriptorLayout(d: P.Descriptor)
    requires P.DescriptorOk(d)
    ensures C.MessageBits(P.WriteDescriptor(d)) == DescriptorBits(d)
    ensures |P.Content(d)| < 256
  {
    hide Bits, C.MessageBits, BigEndian, P.ReadKnown;
    TagAndLength(P.Tag(d), |P.Content(d)| % 256, P.Content(d));
    match d {
      case NoContent(tag) =>
        C.MessageConcat([tag], [0]);
        assert [tag] + [0] == [tag, 0] && [tag, 0] + [] == [tag, 0];
        C.OneByte(tag);
        C.OneByte(0);
      case Registration(_, format, info) =>
        BigEndianBits(format, 4);
        C.MessageConcat(BigEndian(format, 4), info);
      case PrivateDataIndicator(_, indicator) => BigEndianBits(indicator, 4);
      case _ =>
    }
  }

  lemma {:induction false} DescriptorsLayout(ds: seq<P.Descriptor>)
    requires forall i :: 0 <= i < |ds| ==> P.DescriptorOk(ds[i])
    ensures C.MessageBits(P.WriteDescriptors(ds)) == DescriptorsBits(ds)
    decreases |ds|
  {
    hide DescriptorBits, P.DescriptorOk;
    if ds != [] {
      DescriptorLayout(ds[0]);
      DescriptorsLayout(ds[1..]);
      C.MessageConcat(P.WriteDescriptor(ds[0]), P.WriteDescriptors(ds[1..]));
    }
  }

  lemma LoopLayout(ds: seq<P.Descriptor>)
    requires P.LoopOk(ds)
    ensures C.MessageBits(P.WriteLoop(ds)) == LoopBits(ds)
  {
    hide Bits, C.MessageBits, Ones, Pow2, P.DescriptorOk, DescriptorsBits;
    Powers();
    DescriptorsLayout(ds);
    P.DescriptorsSize(ds);
    var n := P.DescriptorsLength(ds);
    var w := P.Word12(n);
    assert w == [w[0], w[1]];
    TwoBytes(w[0], w[1]);
    PackIs(w[0] as int * 256 + w[1] as int, 15, n, 4, 12);
    AllOnes(4);
    C.MessageConcat(w, P.WriteDescriptors(ds));
  }

  lemma PidLayout(pid: nat)
    requires pid < 0x2000
    ensures C.MessageBits(P.Word13(pid)) == Ones(3) + Bits(pid, 13)
  {
    hide Bits, C.MessageBits, Ones, Pow2;
    Powers();
    var w := P.Word13(pid);
    assert w == [w[0], w[1]];
    TwoBytes(w[0], w[1]);
    PackIs(w[0] as int * 256 + w[1] as int, 7, pid, 3, 13);
    AllOnes(3);
  }

  lemma StreamLayout(s: P.ElementaryStream)
    requires s.pid < 0x2000 && P.LoopOk(s.descriptors)
    ensures C.MessageBits(P.WriteStream(s)) == StreamBits(s)
  {
    hide Bits, C.MessageBits, Ones, LoopBits, P.LoopOk, P.WriteLoop;
    C.MessageConcat([s.streamType] + P.Word13(s.pid), P.WriteLoop(s.descriptors));
    C.MessageConcat([s.streamType], P.Word13(s.pid));
    C.OneByte(s.streamType);
    PidLayout(s.pid);
    LoopLayout(s.descriptors);
  }

  lemma {:induction false} StreamsLayout(ss: seq<P.ElementaryStream>)
    requires P.StreamsOk(ss)
    ensures C.MessageBits(P.WriteStreams(ss)) == StreamsBits(ss)
    decreases |ss|
  {
    hide StreamBits, P.LoopOk, P.WriteStream;
    if ss != [] {
      StreamLayout(ss[0]);
      StreamsLayout(ss[1..]);
      C.MessageConcat(P.WriteStream(ss[0]), P.WriteStreams(ss[1..]));
    }
  }

  lemma SectionHeaderLayout(s: P.Section, length: nat)
    requires length < 0x1000
    ensures C.MessageBits(P.WriteHeader(s, length))
      == Bits(0x02, 8) + [s.syntaxIndicator, s.privateBit] + Ones(2) + Bits(length, 12)
  {
    hide Bits, C.MessageBits, Ones, Pow2;
    Powers();
    var h := P.WriteHeader(s, length);
    var flags := Bit(s.syntaxIndicator) * 2 + Bit(s.privateBit);
    assert h == [h[0]] + [h[1], h[2]];
    C.MessageConcat([h[0]], [h[1], h[2]]);
    C.OneByte(h[0]);
    TwoBytes(h[1], h[2]);
    assert h[1] as int * 256 + h[2] as int == (flags * 4 + 3) * 4096 + length;
    PackIs(h[1] as int * 256 + h[2] as int, flags * 4 + 3, length, 4, 12);
    PackIs(flags * 4 + 3, flags, 3, 2, 2);
    TwoFlags(s.syntaxIndicator, s.privateBit);
    AllOnes(2);
  }

  lemma SyntaxHeaderLayout(x: P.Syntax)
    requires x.tableIdExtension < 0x1_0000 && x.version < 32
    ensures C.MessageBits(P.WriteSyntaxHeader(x))
      == Bits(x.tableIdExtension, 16) + Ones(2) + Bits(x.version, 5) + [x.current] + Bits(x.number, 8) + Bits(x.last, 8)
  {
    hide Bits, C.MessageBits, Ones, Pow2;
    Powers();
    var h := P.WriteSyntaxHeader(x);
    var low := x.version * 2 + Bit(x.current);
    assert h == [h[0], h[1]] + [h[2]] + [h[3]] + [h[4]];
    C.MessageConcat([h[0], h[1]] + [h[2]] + [h[3]], [h[4]]);
    C.MessageConcat([h[0], h[1]] + [h[2]], [h[3]]);
    C.MessageConcat([h[0], h[1]], [h[2]]);
    TwoBytes(h[0], h[1]);
    C.OneByte(h[2]);
    C.OneByte(h[3]);
    C.OneByte(h[4]);
    PackIs(h[2], 3, low, 2, 6);
    PackIs(low, x.version, Bit(x.current), 5, 1);
    OneBit(x.current);
    AllOnes(2);
  }

  lemma PMTLayout(p: P.PMT)
    requires p.pcrPID < 0x2000 && P.LoopOk(p.descriptors) && P.StreamsOk(p.streams)
    ensures C.MessageBits(P.WritePMT(p))
      == Ones(3) + Bits(p.pcrPID, 13) + LoopBits(p.descriptors) + StreamsBits(p.streams)
  {
    hide Bits, C.MessageBits, Ones, LoopBits, StreamsBits, P.LoopOk, P.StreamsOk, P.WriteLoop;
    C.MessageConcat(P.Word13(p.pcrPID) + P.WriteLoop(p.descriptors), P.WriteStreams(p.streams));
    C.MessageConcat(P.Word13(p.pcrPID), P.WriteLoop(p.descriptors));
    PidLayout(p.pcrPID);
    LoopLayout(p.descriptors);
    StreamsLayout(p.streams);
  }

  /** A PMT section is these bits, its length counts what follows the length, and its last four
    * bytes are the checksum of all before them. */
  lemma SectionLayout(s: P.Section, x: P.Syntax)
    requires s.length > 0 && P.SyntaxOk(x)
    ensures var d := P.WriteSection(s, x);
      && 4 <= |d| && |d| - 3 < 0x1000
      && C.MessageBits(d[..|d| - 4]) == SectionBits(s, x, |d| - 3)
      && C.MessageBits(d[|d| - 4..]) == C.Checksum(d[..|d| - 4])
  {
    hide Bits, C.MessageBits, Ones, LoopBits, StreamsBits, P.LoopOk, P.StreamsOk, P.WriteHeader, P.WriteSyntaxHeader,
      P.WritePMT, C.Checksum, C.ChecksumBytes;
    var d, body, n := P.WriteSection(s, x), P.WriteBody(s, x), P.ComputedSectionLength(x.pmt);
    assert d == body + C.ChecksumBytes(body);
    P.SectionBack(s, x);
    C.ChecksumBits(body);
    assert d[..|d| - 4] == body && d[|d| - 4..] == C.ChecksumBytes(body);
    C.MessageConcat(P.WriteHeader(s, n) + P.WriteSyntaxHeader(x), P.WritePMT(x.pmt));
    C.MessageConcat(P.WriteHeader(s, n), P.WriteSyntaxHeader(x));
    SectionHeaderLayout(s, n);
    SyntaxHeaderLayout(x);
    PMTLayout(x.pmt);
  }

  // ---- the checksum ----

  /** The generator of Annex A: x^32 + x^26 + x^23 + x^22 + x^16 + x^12 + x^11 + x^10 + x^8 + x^7 + x^5 +
    * x^4 + x^2 + x + 1, of which the register holds all but the first. */
  lemma Generator()
    ensures |C.POLYNOMIAL| == 32
    ensures forall i :: 0 <= i < 32 ==>
      (C.POLYNOMIAL[i] <==> 31 - i in {26, 23, 22, 16, 12, 11, 10, 8, 7, 5, 4, 2, 1, 0})
  {
    hide Bits, Pow2;
    Powers();
    PackIs(0x04C1_1DB7, 0x04C1, 0x1DB7, 16, 16);
    PackIs(0x04C1, 0x04, 0xC1, 8, 8);
    PackIs(0x1DB7, 0x1D, 0xB7, 8, 8);
    EightBits(0x04);
    EightBits(0xC1);
    EightBits(0x1D);
    EightBits(0xB7);
  }

  lemma EightBits(b: byte)
    ensures Bits(b, 8) ==
      [b / 128 % 2 == 1, b / 64 % 2 == 1, b / 32 % 2 == 1, b / 16 % 2 == 1, b / 8 % 2 == 1, b / 4 % 2 == 1,
       b / 2 % 2 == 1, b % 2 == 1]
  {
    hide Bits, Pow2;
    FourBits(b / 16);
    FourBits(b % 16);
    Powers();
    PackIs(b, b / 16, b % 16, 4, 4);
    var high, low := b as int / 16, b as int % 16;
    Nibbles(b, high, low);
  }

  lemma Nibbles(b: int, high: int, low: int)
    requires b == 16 * high + low && 0 <= low < 16 && high >= 0
    ensures b / 128 == high / 8 && b / 64 == high / 4 && b / 32 == high / 2
    ensures b / 8 % 2 == low / 8 % 2 && b / 4 % 2 == low / 4 % 2 && b / 2 % 2 == low / 2 % 2 && b % 2 == low % 2
  {
    assert b / 8 == 2 * high + low / 8;
    EvenPart(high, low / 8);
    assert b / 4 == 2 * (2 * high) + low / 4;
    EvenPart(2 * high, low / 4);
    assert b / 2 == 2 * (4 * high) + low / 2;
    EvenPart(4 * high, low / 2);
    EvenPart(8 * high, low);
  }

  lemma EvenPart(q: int, n: int)
    ensures (2 * q + n) % 2 == n % 2
  {
  }

  lemma FourBits(n: nat)
    requires n < 16
    ensures Bits(n, 4) == [n / 8 % 2 == 1, n / 4 % 2 == 1, n / 2 % 2 == 1, n % 2 == 1]
  {
    TwoBits(n / 4);
    assert Bits(n, 3) == Bits(n / 2, 2) + [n % 2 == 1];
    assert Bits(n, 4) == Bits(n / 2 / 2, 2) + [n / 2 % 2 == 1] + [n % 2 == 1];
    assert n / 2 / 2 == n / 4;
  }

  lemma TwoBits(n: nat)
    ensures Bits(n, 2) == [n / 2 % 2 == 1, n % 2 == 1]
  {
    assert Bits(n / 2, 1) == Bits(n / 2 / 2, 0) + [n / 2 % 2 == 1];
  }
}
