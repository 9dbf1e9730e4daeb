/** PMT sections as bytes (sections 2.4.4.8 to 2.4.4.9 of ISO/IEC 13818-1): the parser and
  * the writer of internal/go-astits/data_psi.go, data_pmt.go and descriptor.go.
  *
  * Descriptors: registration, private data indicator, user defined, those the program does not
  * know, any without content, and eight of those it knows, as they are written again. Sixteen
  * more, of service information and subtitles, are not modelled: here a PMT with one of them is
  * malformed.
  */
module PsiSections {
  import opened Bytes
  import opened Wrappers
  import opened AdaptationField
  import opened Crc

  const PMT_TABLE: byte := 0x02
  const REGISTRATION: byte := 0x05
  const PRIVATE_DATA_INDICATOR: byte := 0x0F

  /** `length` is the parsed length byte; the writer only asks whether it is 0. */
  datatype Descriptor =
    | NoContent(tag: byte)
    | Registration(length: nat, format: nat, info: seq<byte>)
    | PrivateDataIndicator(length: nat, indicator: nat)
    | UserDefined(tag: byte, length: nat, data: seq<byte>)
    | Unknown(tag: byte, length: nat, content: seq<byte>)
    | Known(tag: byte, length: nat, content: seq<byte>)

  datatype ElementaryStream = ElementaryStream(streamType: byte, pid: nat, descriptors: seq<Descriptor>)

  datatype PMT = PMT(programNumber: nat, pcrPID: nat, descriptors: seq<Descriptor>, streams: seq<ElementaryStream>)

  datatype Syntax = Syntax(tableIdExtension: nat, version: nat, current: bool, number: byte, last: byte, pmt: PMT)

  /** `length` is section_length; the writer only asks whether it is 0. */
  datatype Section = Section(syntaxIndicator: bool, privateBit: bool, length: nat, syntax: Option<Syntax>)

  // ---- tags ----

  predicate UserTag(tag: byte) {
    0x80 <= tag as int <= 0xFE
  }

  const DATA_STREAM_ALIGNMENT: byte := 0x06
  const ISO_639: byte := 0x0A
  const MAXIMUM_BITRATE: byte := 0x0E
  const AVC_VIDEO: byte := 0x28
  const STREAM_IDENTIFIER: byte := 0x52
  const PRIVATE_DATA_SPECIFIER: byte := 0x5F
  const AC3: byte := 0x6A
  const ENHANCED_AC3: byte := 0x7A

  /** Tags with a parser of their own. */
  predicate KnownTag(tag: byte) {
    tag in {DATA_STREAM_ALIGNMENT, ISO_639, MAXIMUM_BITRATE, AVC_VIDEO, STREAM_IDENTIFIER, PRIVATE_DATA_SPECIFIER, AC3,
            ENHANCED_AC3}
  }

  /** Tags with a parser of their own that is not part of this model. */
  predicate OtherKnownTag(tag: byte) {
    tag in {0x40, 0x43, 0x44, 0x45, 0x46, 0x48, 0x4D, 0x4E, 0x50, 0x54, 0x55, 0x56, 0x58, 0x59, 0x5A, 0x7F}
  }

  // ---- writing ----

  function Tag(d: Descriptor): byte {
    match d
    case NoContent(tag) => tag
    case Registration(_, _, _) => REGISTRATION
    case PrivateDataIndicator(_, _) => PRIVATE_DATA_INDICATOR
    case UserDefined(tag, _, _) => tag
    case Unknown(tag, _, _) => tag
    case Known(tag, _, _) => tag
  }

  function Content(d: Descriptor): seq<byte> {
    match d
    case NoContent(_) => []
    case Registration(_, format, info) => BigEndian(format, 4) + info
    case PrivateDataIndicator(_, indicator) => BigEndian(indicator, 4)
    case UserDefined(_, _, data) => data
    case Unknown(_, _, content) => content
    case Known(_, _, content) => content
  }

  function StatedLength(d: Descriptor): nat {
    if d.NoContent? then 0 else d.length
  }

  /** writeDescriptor: the length is computed in uint8; a descriptor whose own length is 0
    * gets no content. */
  function WriteDescriptor(d: Descriptor): seq<byte> {
    [Tag(d), |Content(d)| % 256] + if StatedLength(d) == 0 then [] else Content(d)
  }

  function WriteDescriptors(ds: seq<Descriptor>): seq<byte> {
    if ds == [] then [] else WriteDescriptor(ds[0]) + WriteDescriptors(ds[1..])
  }

  /** calcDescriptorsLength, without uint16 arithmetic: under LoopOk it does not wrap. */
  function DescriptorsLength(ds: seq<Descriptor>): nat {
    if ds == [] then 0 else 2 + |Content(ds[0])| % 256 + DescriptorsLength(ds[1..])
  }

  /** Four reserved bits and a 12-bit length, or three reserved bits and a 13-bit PID. */
  function Word12(n: nat): (r: seq<byte>)
    ensures |r| == 2
  {
    [0xF0 + n / 256 % 16, n % 256]
  }

  function Word13(n: nat): (r: seq<byte>)
    ensures |r| == 2
  {
    [0xE0 + n / 256 % 32, n % 256]
  }

  function WriteLoop(ds: seq<Descriptor>): seq<byte> {
    Word12(DescriptorsLength(ds)) + WriteDescriptors(ds)
  }

  function WriteStream(s: ElementaryStream): seq<byte> {
    [s.streamType] + Word13(s.pid) + WriteLoop(s.descriptors)
  }

  function WriteStreams(ss: seq<ElementaryStream>): seq<byte> {
    if ss == [] then [] else WriteStream(ss[0]) + WriteStreams(ss[1..])
  }

  function StreamsLength(ss: seq<ElementaryStream>): nat {
    if ss == [] then 0 else 5 + DescriptorsLength(ss[0].descriptors) + StreamsLength(ss[1..])
  }

  /** calcPSISectionLength of a PMT: syntax header, PMT and CRC. */
  function ComputedSectionLength(p: PMT): nat {
    5 + (4 + DescriptorsLength(p.descriptors) + StreamsLength(p.streams)) + 4
  }

  function WritePMT(p: PMT): seq<byte> {
    Word13(p.pcrPID) + WriteLoop(p.descriptors) + WriteStreams(p.streams)
  }

  function WriteSyntaxHeader(x: Syntax): (r: seq<byte>)
    ensures |r| == 5
  {
    [x.tableIdExtension / 256 % 256, x.tableIdExtension % 256, 0xC0 + x.version % 32 * 2 + Bit(x.current),
      x.number, x.last]
  }

  function WriteHeader(s: Section, length: nat): (r: seq<byte>)
    ensures |r| == 3
  {
    [PMT_TABLE, Bit(s.syntaxIndicator) * 128 + Bit(s.privateBit) * 64 + 48 + length / 256 % 16, length % 256]
  }

  function WriteBody(s: Section, x: Syntax): seq<byte> {
    WriteHeader(s, ComputedSectionLength(x.pmt)) + WriteSyntaxHeader(x) + WritePMT(x.pmt)
  }

  /** writePSISection: the CRC covers everything before it. */
  function WriteSection(s: Section, x: Syntax): seq<byte> {
    if s.length == 0 then WriteHeader(s, ComputedSectionLength(x.pmt))
    else WriteBody(s, x) + ChecksumBytes(WriteBody(s, x))
  }

  // ---- reading: an iterator is the data and an offset, which may lie behind the end ----

  datatype Read<T> = Stop | Read(value: T, offset: nat)

  function Next(d: seq<byte>, offset: nat, n: nat): (r: Read<seq<byte>>)
    ensures r.Read? ==> |r.value| == n
  {
    if offset + n > |d| then Stop else Read(d[offset..offset + n], offset + n)
  }

  function Flag(b: byte, weight: nat): nat
    requires weight > 0
  {
    b as int / weight % 2
  }

  /** The flags, one byte for each that is set, and whatever is left. */
  function ReadFlagged(d: seq<byte>, offset: nat, length: nat, flags: byte, fields: nat): Option<seq<byte>> {
    match Next(d, offset + 1, fields)
    case Stop => None
    case Read(values, o) =>
      if o >= offset + length then Some([flags] + values)
      else match Next(d, o, length - 1 - fields) case Stop => None case Read(info, _) => Some([flags] + values + info)
  }

  /** What a known descriptor is written as after it has been read: reserved bits set, a language
    * code of three bytes, and nothing behind the fields that it has. */
  function ReadKnown(d: seq<byte>, offset: nat, tag: byte, length: nat): Option<seq<byte>>
    requires length > 0
  {
    if tag == ISO_639 then
      match Next(d, offset, length)
      case Stop => None
      case Read(b, _) => Some((b[..length - 1] + [0, 0, 0])[..3] + [b[length - 1]])
    else if tag == MAXIMUM_BITRATE then
      match Next(d, offset, 3) case Stop => None case Read(b, _) => Some([b[0] % 64 + 192, b[1], b[2]])
    else if tag == AVC_VIDEO then
      match Next(d, offset, 4) case Stop => None case Read(b, _) => Some([b[0], b[1], b[2], b[3] / 64 * 64 + 63])
    else if tag == PRIVATE_DATA_SPECIFIER then
      match Next(d, offset, 4) case Stop => None case Read(b, _) => Some(b)
    else
      match Next(d, offset, 1)
      case Stop => None
      case Read(b, _) =>
        var high := Flag(b[0], 128) + Flag(b[0], 64) + Flag(b[0], 32) + Flag(b[0], 16);
        if tag == AC3 then ReadFlagged(d, offset, length, b[0] / 16 * 16 + 15, high)
        else if tag == ENHANCED_AC3 then
          ReadFlagged(d, offset, length, b[0], high + Flag(b[0], 4) + Flag(b[0], 2) + Flag(b[0], 1))
        else Some(b)
  }

  /** The content of a descriptor with a length that is not 0; the caller goes on behind
    * the stated length whatever was read. */
  function ReadContent(d: seq<byte>, offset: nat, tag: byte, length: nat): Option<Descriptor>
    requires length > 0
  {
    if UserTag(tag) then
      match Next(d, offset, length) case Stop => None case Read(data, _) => Some(UserDefined(tag, length, data))
    else if tag == REGISTRATION then
      match Next(d, offset, 4)
      case Stop => None
      case Read(format, o) =>
        if o >= offset + length then Some(Registration(length, FromBigEndian(format), []))
        else match Next(d, o, length - 4)
          case Stop => None
          case Read(info, _) => Some(Registration(length, FromBigEndian(format), info))
    else if tag == PRIVATE_DATA_INDICATOR then
      match Next(d, offset, 4)
      case Stop => None
      case Read(b, _) => Some(PrivateDataIndicator(length, FromBigEndian(b)))
    else if KnownTag(tag) then
      match ReadKnown(d, offset, tag, length) case None => None case Some(content) => Some(Known(tag, length, content))
    else if OtherKnownTag(tag) then None
    else match Next(d, offset, length) case Stop => None case Read(content, _) => Some(Unknown(tag, length, content))
  }

  /** What a known descriptor is written as: its bytes, but for reserved bits, which become ones, a
    * language code, which becomes three bytes, and bytes behind the last field, which are lost. */
  lemma KnownRewritten(d: seq<byte>, offset: nat, tag: byte, length: nat)
    requires length > 0 && KnownTag(tag) && tag != 0x6A && tag != 0x7A
    ensures var r := ReadKnown(d, offset, tag, length);
      && (tag == 0x06 || tag == 0x52 ==>
            (r.Some? <==> offset + 1 <= |d|) && (r.Some? ==> r.value == d[offset..offset + 1]))
      && (tag == 0x5F ==> (r.Some? <==> offset + 4 <= |d|) && (r.Some? ==> r.value == d[offset..offset + 4]))
      && (tag == 0x0E ==>
            && (r.Some? <==> offset + 3 <= |d|)
            && (r.Some? ==>
                  |r.value| == 3 && r.value[0] / 64 == 3 && r.value[0] % 64 == d[offset] % 64
                  && r.value[1..] == d[offset + 1..offset + 3]))
      && (tag == 0x28 ==>
            && (r.Some? <==> offset + 4 <= |d|)
            && (r.Some? ==>
                  |r.value| == 4 && r.value[..3] == d[offset..offset + 3]
                  && r.value[3] / 64 == d[offset + 3] / 64 && r.value[3] % 64 == 63))
      && (tag == 0x0A ==>
            && (r.Some? <==> offset + length <= |d|)
            && (r.Some? ==>
                  |r.value| == 4 && r.value[3] == d[offset + length - 1]
                  && forall i :: 0 <= i < 3 ==> r.value[i] == if i < length - 1 then d[offset + i] else 0))
  {
    hide ReadFlagged, Flag;
    if tag == 0x0A && offset + length <= |d| {
      var b := d[offset..offset + length];
      var code := b[..length - 1] + [0, 0, 0];
      forall i | 0 <= i < 3 ensures code[..3][i] == if i < length - 1 then d[offset + i] else 0 {
        assert code[..3][i] == code[i];
      }
    }
  }

  /** How many of the flags are set: the four high bits, and for enhanced AC-3 the three low ones. */
  function FlagCount(b: int, tag: byte): nat
    requires 0 <= b < 256
  {
    b / 128 + b / 64 % 2 + b / 32 % 2 + b / 16 % 2 + if tag == 0x6A then 0 else b / 4 % 2 + b / 2 % 2 + b % 2
  }

  /** The same for AC-3 (0x6A) and enhanced AC-3 (0x7A): a byte of flags, four or seven of which
    * announce a byte each, and whatever follows. */
  lemma FlaggedRewritten(d: seq<byte>, offset: nat, tag: byte, length: nat)
    requires length > 0 && (tag == 0x6A || tag == 0x7A) && offset < |d|
    ensures var r, b := ReadKnown(d, offset, tag, length), d[offset] as int;
      var fields := FlagCount(b, tag);
      var n := if length > 1 + fields then length else 1 + fields;
      && (r.Some? <==> offset + n <= |d|)
      && (r.Some? ==>
            && |r.value| == n && r.value[1..] == d[offset + 1..offset + n]
            && r.value[0] as int == if tag == 0x6A then b / 16 * 16 + 15 else b)
  {
    hide ReadFlagged, Flag, FlagCount;
    var b := d[offset];
    var high := Flag(b, 128) + Flag(b, 64) + Flag(b, 32) + Flag(b, 16);
    FlagCountIs(b);
    FlaggedIs(d, offset, length, b / 16 * 16 + 15, high);
    FlaggedIs(d, offset, length, b, high + Flag(b, 4) + Flag(b, 2) + Flag(b, 1));
  }

  lemma FlagCountIs(b: byte)
    ensures FlagCount(b, 0x6A) == Flag(b, 128) + Flag(b, 64) + Flag(b, 32) + Flag(b, 16)
    ensures FlagCount(b, 0x7A) == FlagCount(b, 0x6A) + Flag(b, 4) + Flag(b, 2) + Flag(b, 1)
  {
  }

  lemma FlaggedIs(d: seq<byte>, offset: nat, length: nat, flags: byte, fields: nat)
    requires length > 0 && offset < |d|
    ensures var n := if length > 1 + fields then length else 1 + fields;
      ReadFlagged(d, offset, length, flags, fields) ==
        if offset + n <= |d| then Some([flags] + d[offset + 1..offset + n]) else None
  {
    var o := offset + 1 + fields;
    if length > 1 + fields && offset + length <= |d| {
      assert d[offset + 1..offset + length] == d[offset + 1..o] + d[o..offset + length];
      ConcatAssociates([flags], d[offset + 1..o], d[o..offset + length]);
    }
  }

  /** What each tag is read as; a descriptor of length 0 is never looked into. */
  lemma TagKinds(d: seq<byte>, offset: nat, tag: byte, length: nat)
    requires length > 0 && ReadContent(d, offset, tag, length).Some?
    ensures var r := ReadContent(d, offset, tag, length).value;
      && Tag(r) == tag && (r.UserDefined? <==> 0x80 <= tag <= 0xFE)
      && (r.Registration? <==> tag == 0x05) && (r.PrivateDataIndicator? <==> tag == 0x0F)
      && (r.Known? <==> tag in {0x06, 0x0A, 0x0E, 0x28, 0x52, 0x5F, 0x6A, 0x7A})
      && (r.UserDefined? ==> r.data == d[offset..offset + length])
      && (r.Unknown? ==> r.content == d[offset..offset + length])
  {
    hide ReadKnown;
  }

  function ReadDescriptors(d: seq<byte>, offset: nat, end: nat): Read<seq<Descriptor>>
    decreases end - offset
  {
    if offset >= end then Read([], offset)
    else match Next(d, offset, 2)
      case Stop => Stop
      case Read(b, o) =>
        match (if b[1] == 0 then Some(NoContent(b[0])) else ReadContent(d, o, b[0], b[1]))
        case None => Stop
        case Some(first) =>
          match ReadDescriptors(d, o + b[1] as int, end)
          case Stop => Stop
          case Read(more, last) => Read([first] + more, last)
  }

  /** parseDescriptors: the loop behind its 12-bit length. */
  function ReadLoop(d: seq<byte>, offset: nat): Read<seq<Descriptor>> {
    match Next(d, offset, 2)
    case Stop => Stop
    case Read(b, o) => ReadDescriptors(d, o, o + (b[0] as int % 16 * 256 + b[1] as int))
  }

  function ReadStream(d: seq<byte>, offset: nat): Read<ElementaryStream> {
    match Next(d, offset, 3)
    case Stop => Stop
    case Read(b, o) =>
      match ReadLoop(d, o)
      case Stop => Stop
      case Read(ds, last) => Read(ElementaryStream(b[0], b[1] as int % 32 * 256 + b[2] as int, ds), last)
  }

  lemma {:induction false} DescriptorsAdvance(d: seq<byte>, offset: nat, end: nat)
    requires ReadDescriptors(d, offset, end).Read?
    ensures ReadDescriptors(d, offset, end).offset >= offset
    decreases end - offset
  {
    if offset < end {
      DescriptorsAdvance(d, offset + 2 + d[offset + 1] as int, end);
    }
  }

  lemma StreamAdvances(d: seq<byte>, offset: nat)
    requires ReadStream(d, offset).Read?
    ensures ReadStream(d, offset).offset >= offset + 5
  {
    var length := d[offset + 3] as int % 16 * 256 + d[offset + 4] as int;
    DescriptorsAdvance(d, offset + 5, offset + 5 + length);
  }

  function ReadStreams(d: seq<byte>, offset: nat, end: nat): Read<seq<ElementaryStream>>
    decreases end - offset
  {
    if offset >= end then Read([], offset)
    else match ReadStream(d, offset)
      case Stop => Stop
      case Read(first, o) =>
        StreamAdvances(d, offset);
        match ReadStreams(d, o, end)
        case Stop => Stop
        case Read(more, last) => Read([first] + more, last)
  }

  function ReadPMT(d: seq<byte>, offset: nat, end: nat, programNumber: nat): Read<PMT> {
    match Next(d, offset, 2)
    case Stop => Stop
    case Read(b, o) =>
      match ReadLoop(d, o)
      case Stop => Stop
      case Read(ds, p) =>
        match ReadStreams(d, p, end)
        case Stop => Stop
        case Read(streams, last) => Read(PMT(programNumber, b[0] as int % 32 * 256 + b[1] as int, ds, streams), last)
  }

  function ReadSyntax(d: seq<byte>, offset: nat, end: nat): Read<Syntax> {
    match Next(d, offset, 5)
    case Stop => Stop
    case Read(b, o) =>
      var extension := b[0] as int * 256 + b[1] as int;
      match ReadPMT(d, o, end, extension)
      case Stop => Stop
      case Read(pmt, last) =>
        Read(Syntax(extension, b[2] as int % 64 / 2, b[2] as int % 2 == 1, b[3], b[4], pmt), last)
  }

  datatype Parsed = Malformed | OtherTable | Parsed(section: Section)

  /** ParsePSISection. */
  function ParseSection(d: seq<byte>): Parsed {
    if d == [] then Malformed
    else if d[0] != PMT_TABLE then OtherTable
    else match Next(d, 1, 2)
      case Stop => Malformed
      case Read(b, _) =>
        var length := b[0] as int % 16 * 256 + b[1] as int;
        var s := Section(b[0] as int / 128 == 1, b[0] as int / 64 % 2 == 1, length, None);
        if length == 0 then (if 3 < |d| then Malformed else Parsed(s))
        else
          var sectionsEnd := length - 1;
          match ReadSyntax(d, 3, sectionsEnd)
          case Stop => Malformed
          case Read(x, _) =>
            match Next(d, sectionsEnd, 4)
            case Stop => Malformed
            case Read(crc, _) =>
              if crc != ChecksumBytes(d[..sectionsEnd]) || 3 + length < |d| then Malformed
              else Parsed(s.(syntax := Some(x)))
  }

  // ---- what can be written ----

  predicate DescriptorOk(d: Descriptor) {
    match d
    case NoContent(_) => true
    case Registration(length, format, info) => length > 0 && format < 0x1_0000_0000 && |info| < 252
    case PrivateDataIndicator(length, indicator) => length > 0 && indicator < 0x1_0000_0000
    case UserDefined(tag, length, data) => length > 0 && UserTag(tag) && 0 < |data| < 256
    case Unknown(tag, length, content) =>
      && length > 0 && 0 < |content| < 256
      && !UserTag(tag) && tag != REGISTRATION && tag != PRIVATE_DATA_INDICATOR && !KnownTag(tag) && !OtherKnownTag(tag)
    case Known(tag, length, content) =>
      && length > 0 && 0 < |content| < 256 && KnownTag(tag) && ReadKnown(content, 0, tag, |content|) == Some(content)
  }

  ghost predicate LoopOk(ds: seq<Descriptor>) {
    DescriptorsLength(ds) < 0x1000 && forall i :: 0 <= i < |ds| ==> DescriptorOk(ds[i])
  }

  ghost predicate StreamsOk(ss: seq<ElementaryStream>) {
    forall i :: 0 <= i < |ss| ==> ss[i].pid < 0x2000 && LoopOk(ss[i].descriptors)
  }

  ghost predicate SyntaxOk(x: Syntax) {
    && x.tableIdExtension < 0x1_0000 && x.version < 32 && x.pmt.programNumber == x.tableIdExtension
    && x.pmt.pcrPID < 0x2000 && LoopOk(x.pmt.descriptors) && StreamsOk(x.pmt.streams)
    && ComputedSectionLength(x.pmt) < 0x1000
  }

  // ---- with the lengths computed again ----

  function Relength(d: Descriptor): Descriptor {
    match d
    case NoContent(_) => d
    case Registration(_, format, info) => Registration(4 + |info|, format, info)
    case PrivateDataIndicator(_, indicator) => PrivateDataIndicator(4, indicator)
    case UserDefined(tag, _, data) => UserDefined(tag, |data|, data)
    case Unknown(tag, _, content) => Unknown(tag, |content|, content)
    case Known(tag, _, content) => Known(tag, |content|, content)
  }

  function RelengthAll(ds: seq<Descriptor>): (r: seq<Descriptor>)
    ensures |r| == |ds|
  {
    seq(|ds|, i requires 0 <= i < |ds| => Relength(ds[i]))
  }

  function RelengthStreams(ss: seq<ElementaryStream>): (r: seq<ElementaryStream>)
    ensures |r| == |ss|
  {
    seq(|ss|, i requires 0 <= i < |ss| => ss[i].(descriptors := RelengthAll(ss[i].descriptors)))
  }

  function RelengthSyntax(x: Syntax): Syntax {
    x.(pmt := x.pmt.(descriptors := RelengthAll(x.pmt.descriptors), streams := RelengthStreams(x.pmt.streams)))
  }

  // ---- reading undoes writing ----

  ghost predicate UnfoldAt(k: int) { true }

  /** The bytes b are found at the offset. Sealed. */
  ghost predicate At(d: seq<byte>, offset: nat, b: seq<byte>) {
    forall k {:trigger UnfoldAt(k)} :: UnfoldAt(k) ==> offset + |b| <= |d| && d[offset..offset + |b|] == b
  }

  lemma AtBoth(d: seq<byte>, offset: nat, a: seq<byte>, b: seq<byte>)
    requires At(d, offset, a + b)
    ensures At(d, offset, a) && At(d, offset + |a|, b)
  {
    assert UnfoldAt(0);
    var whole := d[offset..offset + |a + b|];
    assert whole[..|a|] == a && whole[|a|..] == b;
  }

  lemma NextAt(d: seq<byte>, offset: nat, b: seq<byte>)
    requires At(d, offset, b)
    ensures Next(d, offset, |b|) == Read(b, offset + |b|)
  {
    assert UnfoldAt(0);
  }

  ghost predicate UnfoldReads(k: int) { true }

  // What is read where. Sealed: the step lemmas open them.

  ghost predicate ReadsDescriptors(d: seq<byte>, offset: nat, end: nat, ds: seq<Descriptor>) {
    forall k {:trigger UnfoldReads(k)} :: UnfoldReads(k) ==> ReadDescriptors(d, offset, end) == Read(ds, end)
  }

  ghost predicate ReadsLoop(d: seq<byte>, offset: nat, ds: seq<Descriptor>, last: nat) {
    forall k {:trigger UnfoldReads(k)} :: UnfoldReads(k) ==> ReadLoop(d, offset) == Read(ds, last)
  }

  ghost predicate ReadsStream(d: seq<byte>, offset: nat, s: ElementaryStream, last: nat) {
    forall k {:trigger UnfoldReads(k)} :: UnfoldReads(k) ==> ReadStream(d, offset) == Read(s, last)
  }

  ghost predicate ReadsStreams(d: seq<byte>, offset: nat, end: nat, ss: seq<ElementaryStream>) {
    forall k {:trigger UnfoldReads(k)} :: UnfoldReads(k) ==> ReadStreams(d, offset, end) == Read(ss, end)
  }

  ghost predicate ReadsPMT(d: seq<byte>, offset: nat, end: nat, p: PMT) {
    forall k {:trigger UnfoldReads(k)} :: UnfoldReads(k) ==> ReadPMT(d, offset, end, p.programNumber) == Read(p, end)
  }

  ghost predicate ReadsSyntax(d: seq<byte>, offset: nat, end: nat, x: Syntax) {
    forall k {:trigger UnfoldReads(k)} :: UnfoldReads(k) ==> ReadSyntax(d, offset, end) == Read(x, end)
  }

  lemma Number4(n: nat)
    requires n < 0x1_0000_0000
    ensures FromBigEndian(BigEndian(n, 4)) == n
  {
    assert Pow256(4) == 0x1_0000_0000 by { assert Pow256(2) == 65536; }
    BigEndianInverse(n, 4);
  }

  lemma NextWithin(d: seq<byte>, offset: nat, b: seq<byte>, k: nat, n: nat)
    requires At(d, offset, b) && k + n <= |b|
    ensures Next(d, offset + k, n) == Read(b[k..k + n], offset + k + n) && Next(b, k, n) == Read(b[k..k + n], k + n)
  {
    var middle, last := b[k..k + n], b[k + n..];
    assert b == b[..k] + (middle + last);
    AtBoth(d, offset, b[..k], middle + last);
    AtBoth(d, offset + k, middle, last);
    NextAt(d, offset + k, middle);
  }

  /** A known descriptor that is as it would be written is read so wherever it stands. */
  lemma KnownAt(d: seq<byte>, offset: nat, tag: byte, content: seq<byte>)
    requires content != [] && KnownTag(tag) && ReadKnown(content, 0, tag, |content|) == Some(content)
    requires At(d, offset, content)
    ensures ReadKnown(d, offset, tag, |content|) == Some(content)
  {
    hide Flag, ReadFlagged;
    if tag == AC3 || tag == ENHANCED_AC3 {
      NextWithin(d, offset, content, 0, 1);
      var b := content[0];
      var high := Flag(b, 128) + Flag(b, 64) + Flag(b, 32) + Flag(b, 16);
      var fields := if tag == AC3 then high else high + Flag(b, 4) + Flag(b, 2) + Flag(b, 1);
      assert content[0..1] == [b];
      FlaggedAt(d, offset, content, if tag == AC3 then b / 16 * 16 + 15 else b, fields);
    } else {
      FixedAt(d, offset, tag, content);
    }
  }

  lemma FixedAt(d: seq<byte>, offset: nat, tag: byte, content: seq<byte>)
    requires content != [] && KnownTag(tag) && tag != AC3 && tag != ENHANCED_AC3
    requires ReadKnown(content, 0, tag, |content|) == Some(content) && At(d, offset, content)
    ensures ReadKnown(d, offset, tag, |content|) == Some(content)
  {
    hide Flag, ReadFlagged, Next;
    NextWithin(d, offset, content, 0, |content|);
    assert content[0..|content|] == content;
    NextWithin(d, offset, content, 0, 1);
    if |content| >= 3 {
      NextWithin(d, offset, content, 0, 3);
    }
    if |content| >= 4 {
      NextWithin(d, offset, content, 0, 4);
    }
    TooShort(content, 3);
    TooShort(content, 4);
  }

  lemma TooShort(d: seq<byte>, n: nat)
    ensures n > |d| ==> Next(d, 0, n) == Stop
  {
  }

  lemma FlaggedAt(d: seq<byte>, offset: nat, content: seq<byte>, flags: byte, fields: nat)
    requires content != [] && At(d, offset, content)
    requires ReadFlagged(content, 0, |content|, flags, fields) == Some(content)
    ensures ReadFlagged(d, offset, |content|, flags, fields) == Some(content)
  {
    NextWithin(d, offset, content, 1, fields);
    if 1 + fields < |content| {
      NextWithin(d, offset, content, 1 + fields, |content| - 1 - fields);
    }
  }

  lemma ContentBack(d: seq<byte>, offset: nat, x: Descriptor)
    requires DescriptorOk(x) && !x.NoContent? && At(d, offset, Content(x))
    ensures ReadContent(d, offset, Tag(x), |Content(x)|) == Some(Relength(x))
  {
    hide ReadKnown;
    NextAt(d, offset, Content(x));
    match x {
      case Registration(_, format, info) =>
        Number4(format);
        AtBoth(d, offset, BigEndian(format, 4), info);
        NextAt(d, offset, BigEndian(format, 4));
        NextAt(d, offset + 4, info);
      case PrivateDataIndicator(_, indicator) => Number4(indicator);
      case Known(tag, _, content) => KnownAt(d, offset, tag, content);
      case _ =>
    }
  }

  lemma ContentSize(x: Descriptor)
    requires DescriptorOk(x)
    ensures |Content(x)| < 256 && (Content(x) == [] <==> x.NoContent?) && (StatedLength(x) == 0 <==> x.NoContent?)
    ensures WriteDescriptor(x) == [Tag(x), |Content(x)|] + Content(x) && |WriteDescriptor(x)| == 2 + |Content(x)|
  {
  }

  /** The two bytes in front of a descriptor, and what is behind them. */
  lemma FirstDescriptor(d: seq<byte>, offset: nat, x: Descriptor)
    requires DescriptorOk(x) && At(d, offset, WriteDescriptor(x))
    ensures |Content(x)| < 256 && Next(d, offset, 2) == Read([Tag(x), |Content(x)|], offset + 2)
    ensures |Content(x)| == 0 ==> Relength(x) == NoContent(Tag(x))
    ensures |Content(x)| != 0 ==> ReadContent(d, offset + 2, Tag(x), |Content(x)|) == Some(Relength(x))
  {
    ContentSize(x);
    AtBoth(d, offset, [Tag(x), |Content(x)|], Content(x));
    NextAt(d, offset, [Tag(x), |Content(x)|]);
    if !x.NoContent? {
      ContentBack(d, offset + 2, x);
    }
  }

  lemma {:induction false} DescriptorsSize(ds: seq<Descriptor>)
    requires forall i :: 0 <= i < |ds| ==> DescriptorOk(ds[i])
    ensures |WriteDescriptors(ds)| == DescriptorsLength(ds)
    decreases |ds|
  {
    if ds != [] {
      ContentSize(ds[0]);
      DescriptorsSize(ds[1..]);
    }
  }

  lemma DescriptorsStep(d: seq<byte>, offset: nat, end: nat, b: seq<byte>, x: Descriptor, more: seq<Descriptor>)
    requires offset < end && Next(d, offset, 2) == Read(b, offset + 2)
    requires if b[1] == 0 then x == NoContent(b[0]) else ReadContent(d, offset + 2, b[0], b[1]) == Some(x)
    requires ReadsDescriptors(d, offset + 2 + b[1] as int, end, more)
    ensures ReadsDescriptors(d, offset, end, [x] + more)
  {
    assert UnfoldReads(0);
  }

  lemma RelengthFirst(ds: seq<Descriptor>)
    requires ds != []
    ensures RelengthAll(ds) == [Relength(ds[0])] + RelengthAll(ds[1..])
  {
  }

  lemma FirstOfDescriptors(d: seq<byte>, offset: nat, end: nat, ds: seq<Descriptor>)
    requires ds != [] && At(d, offset, WriteDescriptors(ds)) && DescriptorOk(ds[0])
    requires end == offset + DescriptorsLength(ds)
    ensures At(d, offset, WriteDescriptor(ds[0])) && offset < end
    ensures At(d, offset + 2 + |Content(ds[0])|, WriteDescriptors(ds[1..]))
    ensures end == offset + 2 + |Content(ds[0])| + DescriptorsLength(ds[1..])
  {
    hide DescriptorOk, ReadContent, Content;
    ContentSize(ds[0]);
    DescriptorsFirst(ds);
    CutFirst(d, offset, WriteDescriptors(ds), WriteDescriptor(ds[0]), WriteDescriptors(ds[1..]), offset + 2
      + |Content(ds[0])|);
  }

  lemma CutFirst(d: seq<byte>, offset: nat, all: seq<byte>, first: seq<byte>, more: seq<byte>, next: nat)
    requires At(d, offset, all) && all == first + more && next == offset + |first|
    ensures At(d, offset, first) && At(d, next, more)
  {
    AtBoth(d, offset, first, more);
  }

  lemma DescriptorsFirst(ds: seq<Descriptor>)
    requires ds != []
    ensures WriteDescriptors(ds) == WriteDescriptor(ds[0]) + WriteDescriptors(ds[1..])
    ensures DescriptorsLength(ds) == 2 + |Content(ds[0])| % 256 + DescriptorsLength(ds[1..])
  {
  }

  lemma {:induction false} DescriptorsBack(d: seq<byte>, offset: nat, end: nat, ds: seq<Descriptor>)
    requires At(d, offset, WriteDescriptors(ds)) && forall i :: 0 <= i < |ds| ==> DescriptorOk(ds[i])
    requires end == offset + DescriptorsLength(ds)
    ensures ReadsDescriptors(d, offset, end, RelengthAll(ds))
    decreases |ds|
  {
    hide DescriptorOk, ReadContent, Content;
    if ds != [] {
      FirstOfDescriptors(d, offset, end, ds);
      DescriptorsBack(d, offset + 2 + |Content(ds[0])|, end, ds[1..]);
      OneMoreDescriptor(d, offset, end, ds[0], RelengthAll(ds[1..]));
      RelengthFirst(ds);
    } else {
      assert UnfoldReads(0);
    }
  }

  lemma OneMoreDescriptor(d: seq<byte>, offset: nat, end: nat, x: Descriptor, more: seq<Descriptor>)
    requires DescriptorOk(x) && At(d, offset, WriteDescriptor(x)) && offset < end
    requires ReadsDescriptors(d, offset + 2 + |Content(x)|, end, more)
    ensures ReadsDescriptors(d, offset, end, [Relength(x)] + more)
  {
    FirstDescriptor(d, offset, x);
    DescriptorsStep(d, offset, end, [Tag(x), |Content(x)|], Relength(x), more);
  }

  lemma LoopStep(d: seq<byte>, offset: nat, n: nat, ds: seq<Descriptor>)
    requires n < 0x1000 && Next(d, offset, 2) == Read(Word12(n), offset + 2)
    requires ReadsDescriptors(d, offset + 2, offset + 2 + n, ds)
    ensures ReadsLoop(d, offset, ds, offset + 2 + n)
  {
    assert UnfoldReads(0);
  }

  lemma LoopSize(ds: seq<Descriptor>)
    requires LoopOk(ds)
    ensures |WriteLoop(ds)| == 2 + DescriptorsLength(ds)
  {
    DescriptorsSize(ds);
  }

  lemma LoopBack(d: seq<byte>, offset: nat, ds: seq<Descriptor>)
    requires At(d, offset, WriteLoop(ds)) && LoopOk(ds)
    ensures ReadsLoop(d, offset, RelengthAll(ds), offset + 2 + DescriptorsLength(ds))
  {
    var n, read := DescriptorsLength(ds), RelengthAll(ds);
    AtBoth(d, offset, Word12(n), WriteDescriptors(ds));
    NextAt(d, offset, Word12(n));
    DescriptorsBack(d, offset + 2, offset + 2 + n, ds);
    LoopStep(d, offset, n, read);
  }

  lemma StreamStep(d: seq<byte>, offset: nat, streamType: byte, pid: nat, ds: seq<Descriptor>, last: nat)
    requires pid < 0x2000 && Next(d, offset, 3) == Read([streamType] + Word13(pid), offset + 3)
    requires ReadsLoop(d, offset + 3, ds, last)
    ensures ReadsStream(d, offset, ElementaryStream(streamType, pid, ds), last)
  {
    assert UnfoldReads(0);
  }

  lemma StreamBack(d: seq<byte>, offset: nat, s: ElementaryStream)
    requires At(d, offset, WriteStream(s)) && s.pid < 0x2000 && LoopOk(s.descriptors)
    ensures ReadsStream(d, offset, s.(descriptors := RelengthAll(s.descriptors)), offset + |WriteStream(s)|)
  {
    var front := [s.streamType] + Word13(s.pid);
    AtBoth(d, offset, front, WriteLoop(s.descriptors));
    NextAt(d, offset, front);
    LoopSize(s.descriptors);
    LoopBack(d, offset + 3, s.descriptors);
    StreamStep(d, offset, s.streamType, s.pid, RelengthAll(s.descriptors), offset + |WriteStream(s)|);
  }

  lemma StreamsStep(d: seq<byte>, offset: nat, end: nat, s: ElementaryStream, next: nat, more: seq<ElementaryStream>)
    requires offset < end && ReadsStream(d, offset, s, next) && ReadsStreams(d, next, end, more)
    ensures ReadsStreams(d, offset, end, [s] + more)
  {
    assert UnfoldReads(0);
    StreamAdvances(d, offset);
  }

  function RelengthStream(s: ElementaryStream): ElementaryStream {
    s.(descriptors := RelengthAll(s.descriptors))
  }

  lemma RelengthFirstStream(ss: seq<ElementaryStream>)
    requires ss != []
    ensures RelengthStreams(ss) == [RelengthStream(ss[0])] + RelengthStreams(ss[1..])
  {
  }

  lemma StreamSize(s: ElementaryStream)
    requires LoopOk(s.descriptors)
    ensures |WriteStream(s)| == 5 + DescriptorsLength(s.descriptors)
  {
    LoopSize(s.descriptors);
  }

  lemma {:induction false} StreamsSize(ss: seq<ElementaryStream>)
    requires StreamsOk(ss)
    ensures |WriteStreams(ss)| == StreamsLength(ss)
    decreases |ss|
  {
    if ss != [] {
      StreamSize(ss[0]);
      StreamsSize(ss[1..]);
    }
  }

  lemma FirstOfStreams(d: seq<byte>, offset: nat, end: nat, ss: seq<ElementaryStream>) returns (next: nat)
    requires ss != [] && At(d, offset, WriteStreams(ss)) && StreamsOk(ss) && end == offset + StreamsLength(ss)
    ensures At(d, offset, WriteStream(ss[0])) && ss[0].pid < 0x2000 && LoopOk(ss[0].descriptors) && offset < end
    ensures next == offset + |WriteStream(ss[0])| && At(d, next, WriteStreams(ss[1..]))
    ensures StreamsOk(ss[1..]) && end == next + StreamsLength(ss[1..])
  {
    StreamSize(ss[0]);
    AtBoth(d, offset, WriteStream(ss[0]), WriteStreams(ss[1..]));
    next := offset + |WriteStream(ss[0])|;
  }

  lemma {:induction false} StreamsBack(d: seq<byte>, offset: nat, end: nat, ss: seq<ElementaryStream>)
    requires At(d, offset, WriteStreams(ss)) && StreamsOk(ss) && end == offset + StreamsLength(ss)
    ensures ReadsStreams(d, offset, end, RelengthStreams(ss))
    decreases |ss|
  {
    if ss != [] {
      var next := FirstOfStreams(d, offset, end, ss);
      StreamsBack(d, next, end, ss[1..]);
      OneMoreStream(d, offset, end, ss[0], RelengthStreams(ss[1..]));
      RelengthFirstStream(ss);
    } else {
      assert UnfoldReads(0);
    }
  }

  lemma OneMoreStream(d: seq<byte>, offset: nat, end: nat, s: ElementaryStream, more: seq<ElementaryStream>)
    requires s.pid < 0x2000 && LoopOk(s.descriptors) && At(d, offset, WriteStream(s)) && offset < end
    requires ReadsStreams(d, offset + |WriteStream(s)|, end, more)
    ensures ReadsStreams(d, offset, end, [RelengthStream(s)] + more)
  {
    hide At, ReadsStreams, WriteStream;
    StreamBack(d, offset, s);
    StreamsStep(d, offset, end, RelengthStream(s), offset + |WriteStream(s)|, more);
  }

  lemma PMTStep(d: seq<byte>, offset: nat, end: nat, p: PMT, next: nat)
    requires p.pcrPID < 0x2000 && Next(d, offset, 2) == Read(Word13(p.pcrPID), offset + 2)
    requires ReadsLoop(d, offset + 2, p.descriptors, next) && ReadsStreams(d, next, end, p.streams)
    ensures ReadsPMT(d, offset, end, p)
  {
    assert UnfoldReads(0);
  }

  lemma PMTParts(d: seq<byte>, offset: nat, p: PMT)
    requires At(d, offset, WritePMT(p)) && LoopOk(p.descriptors) && StreamsOk(p.streams)
    ensures At(d, offset, Word13(p.pcrPID)) && At(d, offset + 2, WriteLoop(p.descriptors))
    ensures At(d, offset + 2 + |WriteLoop(p.descriptors)|, WriteStreams(p.streams))
    ensures |WritePMT(p)| == 2 + |WriteLoop(p.descriptors)| + |WriteStreams(p.streams)|
  {
    AtBoth(d, offset, Word13(p.pcrPID) + WriteLoop(p.descriptors), WriteStreams(p.streams));
    AtBoth(d, offset, Word13(p.pcrPID), WriteLoop(p.descriptors));
  }

  function RelengthPMT(p: PMT): PMT {
    p.(descriptors := RelengthAll(p.descriptors), streams := RelengthStreams(p.streams))
  }

  lemma PMTSize(p: PMT)
    requires LoopOk(p.descriptors) && StreamsOk(p.streams)
    ensures |WritePMT(p)| == 4 + DescriptorsLength(p.descriptors) + StreamsLength(p.streams)
  {
    LoopSize(p.descriptors);
    StreamsSize(p.streams);
  }

  lemma PMTBack(d: seq<byte>, offset: nat, end: nat, p: PMT)
    requires At(d, offset, WritePMT(p)) && p.pcrPID < 0x2000 && LoopOk(p.descriptors) && StreamsOk(p.streams)
    requires end == offset + |WritePMT(p)|
    ensures ReadsPMT(d, offset, end, RelengthPMT(p))
  {
    PMTParts(d, offset, p);
    LoopSize(p.descriptors);
    StreamsSize(p.streams);
    PMTRead(d, offset, p, offset + 2 + |WriteLoop(p.descriptors)|, end);
  }

  lemma PMTRead(d: seq<byte>, offset: nat, p: PMT, next: nat, end: nat)
    requires p.pcrPID < 0x2000 && LoopOk(p.descriptors) && StreamsOk(p.streams)
    requires At(d, offset, Word13(p.pcrPID)) && At(d, offset + 2, WriteLoop(p.descriptors))
      && At(d, next, WriteStreams(p.streams))
    requires next == offset + 4 + DescriptorsLength(p.descriptors) && end == next + StreamsLength(p.streams)
    ensures ReadsPMT(d, offset, end, RelengthPMT(p))
  {
    NextAt(d, offset, Word13(p.pcrPID));
    LoopBack(d, offset + 2, p.descriptors);
    StreamsBack(d, next, end, p.streams);
    PMTStep(d, offset, end, RelengthPMT(p), next);
  }

  lemma SyntaxStep(d: seq<byte>, offset: nat, end: nat, b: seq<byte>, x: Syntax)
    requires Next(d, offset, 5) == Read(b, offset + 5)
    requires b[0] as int * 256 + b[1] as int == x.tableIdExtension
    requires b[2] as int % 64 / 2 == x.version && (b[2] as int % 2 == 1 <==> x.current) && b[3] == x.number
      && b[4] == x.last
    requires ReadsPMT(d, offset + 5, end, x.pmt) && x.pmt.programNumber == x.tableIdExtension
    ensures ReadsSyntax(d, offset, end, x)
  {
    assert UnfoldReads(0);
  }

  lemma SyntaxHeaderBits(x: Syntax)
    requires x.tableIdExtension < 0x1_0000 && x.version < 32
    ensures var b := WriteSyntaxHeader(x);
      && b[0] as int * 256 + b[1] as int == x.tableIdExtension
      && b[2] as int % 64 / 2 == x.version && (b[2] as int % 2 == 1 <==> x.current) && b[3] == x.number
        && b[4] == x.last
  {
  }

  lemma SyntaxBack(d: seq<byte>, offset: nat, end: nat, x: Syntax)
    requires At(d, offset, WriteSyntaxHeader(x) + WritePMT(x.pmt)) && SyntaxOk(x)
    requires end == offset + 5 + |WritePMT(x.pmt)|
    ensures ReadsSyntax(d, offset, end, RelengthSyntax(x))
  {
    AtBoth(d, offset, WriteSyntaxHeader(x), WritePMT(x.pmt));
    NextAt(d, offset, WriteSyntaxHeader(x));
    SyntaxHeaderBits(x);
    PMTBack(d, offset + 5, end, x.pmt);
    SyntaxStep(d, offset, end, WriteSyntaxHeader(x), RelengthSyntax(x));
  }

  lemma HeaderBits(s: Section, length: nat)
    requires length < 0x1000
    ensures var b := WriteHeader(s, length);
      && b[1] as int % 16 * 256 + b[2] as int == length
      && (b[1] as int / 128 == 1 <==> s.syntaxIndicator) && (b[1] as int / 64 % 2 == 1 <==> s.privateBit)
  {
  }

  lemma SectionBytes(s: Section, x: Syntax)
    requires s.length > 0
    ensures var d, body := WriteSection(s, x), WriteBody(s, x);
      && At(d, 0, WriteHeader(s, ComputedSectionLength(x.pmt))) && At(d, 3, WriteSyntaxHeader(x) + WritePMT(x.pmt))
      && d[|body|..] == ChecksumBytes(body) && d[..|body|] == body && |d| == |body| + 4
      && |body| == 8 + |WritePMT(x.pmt)|
  {
    var header := WriteHeader(s, ComputedSectionLength(x.pmt));
    var rest := WriteSyntaxHeader(x) + WritePMT(x.pmt);
    assert WriteBody(s, x) == header + rest;
    assert WriteSection(s, x)[3..|WriteBody(s, x)|] == rest;
  }

  /** The steps of ParseSection for a section whose length is right. */
  lemma SectionStep(d: seq<byte>, b: seq<byte>, length: nat, s: Section)
    requires d != [] && d[0] == PMT_TABLE && Next(d, 1, 2) == Read(b, 3)
    requires b[0] as int % 16 * 256 + b[1] as int == length > 0
    requires b[0] as int / 128 == 1 <==> s.syntaxIndicator
    requires b[0] as int / 64 % 2 == 1 <==> s.privateBit
    requires |d| == 3 + length && s.length == length && s.syntax.Some?
    requires ReadSyntax(d, 3, length - 1) == Read(s.syntax.value, length - 1)
    requires Next(d, length - 1, 4) == Read(ChecksumBytes(d[..length - 1]), length + 3)
    ensures ParseSection(d) == Parsed(s)
  {
  }

  lemma HeaderAt(d: seq<byte>, h: seq<byte>)
    requires At(d, 0, h) && |h| == 3
    ensures d != [] && d[0] == h[0] && Next(d, 1, 2) == Read([h[1], h[2]], 3)
  {
    assert UnfoldAt(0);
    assert d[1..3] == [h[1], h[2]];
  }

  lemma LastFour(d: seq<byte>, n: nat)
    requires |d| == n + 4
    ensures Next(d, n, 4) == Read(d[n..], n + 4)
  {
    assert d[n..n + 4] == d[n..];
  }

  /** The parser accepts what the writer writes and returns the same section, with section
    * and descriptor lengths computed again. */
  lemma SectionBack(s: Section, x: Syntax)
    requires s.length > 0 && SyntaxOk(x)
    ensures ParseSection(WriteSection(s, x))
      == Parsed(s.(length := ComputedSectionLength(x.pmt), syntax := Some(RelengthSyntax(x))))
    ensures |WriteSection(s, x)| == 3 + ComputedSectionLength(x.pmt)
  {
    hide ParseSection, RelengthSyntax;
    var body, length := WriteBody(s, x), ComputedSectionLength(x.pmt);
    SectionBytes(s, x);
    PMTSize(x.pmt);
    assert |body| == length - 1;
    SyntaxBack(WriteSection(s, x), 3, length - 1, x);
    SectionRead(s, x, WriteSection(s, x), body, length);
  }

  lemma SectionRead(s: Section, x: Syntax, d: seq<byte>, body: seq<byte>, length: nat)
    requires 0 < length < 0x1000 && |body| == length - 1 && |d| == 3 + length
    requires d[..|body|] == body && d[|body|..] == ChecksumBytes(body) && At(d, 0, WriteHeader(s, length))
    requires ReadsSyntax(d, 3, length - 1, RelengthSyntax(x))
    ensures ParseSection(d) == Parsed(s.(length := length, syntax := Some(RelengthSyntax(x))))
  {
    var h := WriteHeader(s, length);
    HeaderBits(s, length);
    HeaderAt(d, h);
    LastFour(d, length - 1);
    assert UnfoldReads(0);
    SectionStep(d, [h[1], h[2]], length, s.(length := length, syntax := Some(RelengthSyntax(x))));
  }

  // ---- what has been parsed can be written ----

  lemma FlaggedAgain(d: seq<byte>, offset: nat, length: nat, flags: byte, fields: nat)
    requires length > 0 && ReadFlagged(d, offset, length, flags, fields).Some?
    ensures var c := ReadFlagged(d, offset, length, flags, fields).value;
      && |c| == (if 1 + fields < length then length else 1 + fields) && c[0] == flags
      && ReadFlagged(c, 0, |c|, flags, fields) == Some(c)
  {
    var c := ReadFlagged(d, offset, length, flags, fields).value;
    var values := Next(d, offset + 1, fields).value;
    assert c[1..1 + fields] == values;
    if 1 + fields < |c| {
      var info := c[1 + fields..];
      assert c == [flags] + values + info && c[1 + fields..|c|] == info;
      assert Next(c, 1 + fields, |c| - 1 - fields) == Read(info, |c|);
    }
  }

  /** Setting the reserved bits keeps the flags. */
  lemma FlagsKept(b: byte)
    ensures var c: byte := b / 16 * 16 + 15;
      && c / 16 * 16 + 15 == c
      && Flag(c, 128) == Flag(b, 128) && Flag(c, 64) == Flag(b, 64)
      && Flag(c, 32) == Flag(b, 32) && Flag(c, 16) == Flag(b, 16)
  {
    var n: int, c: int := b as int / 16, b as int / 16 * 16 + 15;
    assert c / 16 == n && c / 32 == n / 2 && c / 64 == n / 4 && c / 128 == n / 8;
    assert b as int / 32 == n / 2 && b as int / 64 == n / 4 && b as int / 128 == n / 8;
  }

  /** A known descriptor that has been read is as it would be written. */
  lemma KnownAgain(d: seq<byte>, offset: nat, tag: byte, length: byte)
    requires length > 0 && KnownTag(tag) && ReadKnown(d, offset, tag, length).Some?
    ensures var c := ReadKnown(d, offset, tag, length).value;
      0 < |c| < 256 && ReadKnown(c, 0, tag, |c|) == Some(c)
  {
    hide ReadFlagged, Flag;
    if tag == AC3 || tag == ENHANCED_AC3 {
      var b := Next(d, offset, 1).value[0];
      var high := Flag(b, 128) + Flag(b, 64) + Flag(b, 32) + Flag(b, 16);
      var fields := if tag == AC3 then high else high + Flag(b, 4) + Flag(b, 2) + Flag(b, 1);
      var flags: byte := if tag == AC3 then b / 16 * 16 + 15 else b;
      FlaggedAgain(d, offset, length, flags, fields);
      FewFlags(b);
      FlagsKept(b);
      var c := ReadKnown(d, offset, tag, length).value;
      assert c[0..1] == [flags];
      assert Next(c, 0, 1) == Read([flags], 1);
    } else {
      FixedAgain(d, offset, tag, length);
    }
  }

  lemma FewFlags(b: byte)
    ensures forall w: nat :: w > 0 ==> 0 <= Flag(b, w) <= 1
  {
  }

  lemma FixedAgain(d: seq<byte>, offset: nat, tag: byte, length: byte)
    requires length > 0 && KnownTag(tag) && tag != AC3 && tag != ENHANCED_AC3 && ReadKnown(d, offset, tag, length).Some?
    ensures var c := ReadKnown(d, offset, tag, length).value;
      0 < |c| < 256 && ReadKnown(c, 0, tag, |c|) == Some(c)
  {
    hide ReadFlagged, Flag;
    var c := ReadKnown(d, offset, tag, length).value;
    assert c[0..|c|] == c;
    if tag == ISO_639 {
      assert (c[..3] + [0, 0, 0])[..3] == c[..3] && c == c[..3] + [c[3]];
    } else if tag == MAXIMUM_BITRATE {
      assert Next(c, 0, 3) == Read(c, 3);
      var n: int := c[0] as int;
      assert n % 64 + 192 == n;
    } else if tag == AVC_VIDEO {
      assert Next(c, 0, 4) == Read(c, 4);
      var n: int := c[3] as int;
      assert n / 64 * 64 + 63 == n;
    }
  }

  lemma ContentOk(d: seq<byte>, offset: nat, tag: byte, length: byte)
    requires length > 0 && ReadContent(d, offset, tag, length).Some?
    ensures DescriptorOk(ReadContent(d, offset, tag, length).value)
  {
    hide ReadKnown;
    assert Pow256(4) == 0x1_0000_0000 by { assert Pow256(2) == 65536; }
    if tag == REGISTRATION || tag == PRIVATE_DATA_INDICATOR {
      FromBigEndianBound(d[offset..offset + 4]);
    } else if !UserTag(tag) && KnownTag(tag) {
      KnownAgain(d, offset, tag, length);
    }
  }

  predicate AllDescriptorsOk(ds: seq<Descriptor>) {
    forall i :: 0 <= i < |ds| ==> DescriptorOk(ds[i])
  }

  lemma {:induction false} ReadDescriptorsOk(d: seq<byte>, offset: nat, end: nat)
    requires ReadDescriptors(d, offset, end).Read?
    ensures AllDescriptorsOk(ReadDescriptors(d, offset, end).value)
    decreases end - offset
  {
    hide ReadContent, DescriptorOk;
    if offset < end {
      var b := Next(d, offset, 2).value;
      ReadDescriptorsOk(d, offset + 2 + b[1] as int, end);
      if b[1] > 0 {
        ContentOk(d, offset + 2, b[0], b[1]);
      } else {
        NoContentOk(b[0]);
      }
    }
  }

  lemma NoContentOk(tag: byte)
    ensures DescriptorOk(NoContent(tag))
  {
  }

  lemma ReadLoopOk(d: seq<byte>, offset: nat)
    requires ReadLoop(d, offset).Read?
    ensures AllDescriptorsOk(ReadLoop(d, offset).value)
  {
    var b := Next(d, offset, 2).value;
    ReadDescriptorsOk(d, offset + 2, offset + 2 + (b[0] as int % 16 * 256 + b[1] as int));
  }

  predicate AllStreamsOk(ss: seq<ElementaryStream>) {
    forall i :: 0 <= i < |ss| ==> ss[i].pid < 0x2000 && AllDescriptorsOk(ss[i].descriptors)
  }

  lemma {:induction false} ReadStreamsOk(d: seq<byte>, offset: nat, end: nat)
    requires ReadStreams(d, offset, end).Read?
    ensures AllStreamsOk(ReadStreams(d, offset, end).value)
    decreases end - offset
  {
    hide ReadLoop, AllDescriptorsOk;
    if offset < end {
      StreamAdvances(d, offset);
      ReadLoopOk(d, offset + 3);
      ReadStreamsOk(d, ReadStream(d, offset).offset, end);
    }
  }

  /** The descriptors fit their loops and the PMT its section. */
  predicate Sized(x: Syntax) {
    && DescriptorsLength(x.pmt.descriptors) < 0x1000 && ComputedSectionLength(x.pmt) < 0x1000
    && forall i :: 0 <= i < |x.pmt.streams| ==> DescriptorsLength(x.pmt.streams[i].descriptors) < 0x1000
  }

  lemma ReadSyntaxOk(d: seq<byte>, offset: nat, end: nat)
    requires ReadSyntax(d, offset, end).Read? && Sized(ReadSyntax(d, offset, end).value)
    ensures SyntaxOk(ReadSyntax(d, offset, end).value)
  {
    hide ReadLoop, ReadStreams, DescriptorOk;
    var pmt := Next(d, offset + 5, 2);
    ReadLoopOk(d, offset + 7);
    ReadStreamsOk(d, ReadLoop(d, offset + 7).offset, end);
  }

  // ---- what has been parsed comes through ----

  /** A section as a parser returns it after it has been written. */
  function Normal(s: Section): Section
    requires s.syntax.Some?
  {
    s.(length := ComputedSectionLength(s.syntax.value.pmt), syntax := Some(RelengthSyntax(s.syntax.value)))
  }

  lemma RelengthOk(d: Descriptor)
    requires DescriptorOk(d)
    ensures DescriptorOk(Relength(d)) && Relength(Relength(d)) == Relength(d) && Content(Relength(d)) == Content(d)
  {
    hide ReadKnown;
  }

  lemma {:induction false} RelengthAllOk(ds: seq<Descriptor>)
    requires AllDescriptorsOk(ds)
    ensures AllDescriptorsOk(RelengthAll(ds)) && RelengthAll(RelengthAll(ds)) == RelengthAll(ds)
    ensures DescriptorsLength(RelengthAll(ds)) == DescriptorsLength(ds)
    decreases |ds|
  {
    hide DescriptorOk, Relength, Content;
    forall i | 0 <= i < |ds| ensures DescriptorOk(Relength(ds[i])) && Relength(Relength(ds[i])) == Relength(ds[i]) {
      RelengthOk(ds[i]);
    }
    if ds != [] {
      RelengthOk(ds[0]);
      RelengthAllOk(ds[1..]);
      assert RelengthAll(ds)[1..] == RelengthAll(ds[1..]);
    }
  }

  lemma {:induction false} RelengthStreamsOk(ss: seq<ElementaryStream>)
    requires StreamsOk(ss)
    ensures StreamsOk(RelengthStreams(ss)) && RelengthStreams(RelengthStreams(ss)) == RelengthStreams(ss)
    ensures StreamsLength(RelengthStreams(ss)) == StreamsLength(ss)
    decreases |ss|
  {
    hide DescriptorOk, RelengthAll;
    forall i | 0 <= i < |ss|
      ensures LoopOk(RelengthAll(ss[i].descriptors))
      ensures RelengthAll(RelengthAll(ss[i].descriptors)) == RelengthAll(ss[i].descriptors)
    {
      RelengthAllOk(ss[i].descriptors);
    }
    if ss != [] {
      RelengthAllOk(ss[0].descriptors);
      RelengthStreamsOk(ss[1..]);
      assert RelengthStreams(ss)[1..] == RelengthStreams(ss[1..]);
    }
  }

  lemma NormalOk(x: Syntax)
    requires SyntaxOk(x)
    ensures SyntaxOk(RelengthSyntax(x)) && RelengthSyntax(RelengthSyntax(x)) == RelengthSyntax(x)
    ensures ComputedSectionLength(RelengthSyntax(x).pmt) == ComputedSectionLength(x.pmt)
  {
    hide DescriptorOk, RelengthAll, RelengthStreams;
    RelengthAllOk(x.pmt.descriptors);
    RelengthStreamsOk(x.pmt.streams);
  }

  /** A section whose lengths are right comes through unchanged. */
  lemma NormalSectionBack(s: Section)
    requires s.syntax.Some? && s.length > 0 && SyntaxOk(s.syntax.value) && Normal(s) == s
    ensures ParseSection(WriteSection(s, s.syntax.value)) == Parsed(s)
  {
    SectionBack(s, s.syntax.value);
  }

  /** Whatever has been parsed can be written, if its loops are not too long, and is read back as
    * it was but for its lengths; from then on it does not change any more. */
  lemma ParsedBack(d: seq<byte>)
    requires ParseSection(d).Parsed? && ParseSection(d).section.length > 0
    requires Sized(ParseSection(d).section.syntax.value)
    ensures var s := ParseSection(d).section;
      && ParseSection(WriteSection(s, s.syntax.value)) == Parsed(Normal(s))
      && Normal(Normal(s)) == Normal(s)
      && ParseSection(WriteSection(Normal(s), Normal(s).syntax.value)) == Parsed(Normal(s))
  {
    hide ReadSyntax, RelengthSyntax, SyntaxOk, WriteSection, Sized;
    var s := ParseSection(d).section;
    ReadSyntaxOk(d, 3, s.length - 1);
    SectionBack(s, s.syntax.value);
    NormalOk(s.syntax.value);
    NormalSectionBack(Normal(s));
  }

  /** The CRC that a section must carry to be accepted. */
  lemma AcceptedChecksum(d: seq<byte>)
    requires ParseSection(d).Parsed? && ParseSection(d).section.length > 0
    ensures var end := ParseSection(d).section.length - 1;
      && ParseSection(d).section.length == d[1] as int % 16 * 256 + d[2] as int
      && end + 4 == |d| && d[end..] == ChecksumBytes(d[..end])
  {
    var end := ParseSection(d).section.length - 1;
    assert d[1..3][0] == d[1] && d[1..3][1] == d[2];
    assert d[end..end + 4] == d[end..];
  }

  /** Damage within four neighbouring bytes of an accepted section, behind its length and in
    * front of its CRC, is always noticed. */
  lemma DamageNoticed(front: seq<byte>, x: seq<byte>, y: seq<byte>, back: seq<byte>, crc: seq<byte>)
    requires |front| >= 3 && |x| == |y| <= 4 && x != y && |crc| == 4
    requires ParseSection(front + x + back + crc).Parsed? && ParseSection(front + x + back + crc).section.length > 0
    ensures !ParseSection(front + y + back + crc).Parsed?
  {
    var good, bad := front + x + back + crc, front + y + back + crc;
    AcceptedChecksum(good);
    ChangeShows(front, x, y, back);
    assert good[..|good| - 4] == front + x + back && bad[..|bad| - 4] == front + y + back;
    assert good[|good| - 4..] == crc && bad[|bad| - 4..] == crc;
    ChecksumBits(front + x + back);
    ChecksumBits(front + y + back);
    if ParseSection(bad).Parsed? {
      SameHeader(good, bad);
      AcceptedChecksum(bad);
    }
  }

  lemma SameHeader(good: seq<byte>, bad: seq<byte>)
    requires ParseSection(good).Parsed? && ParseSection(bad).Parsed?
    requires |good| >= 3 && |bad| >= 3 && good[1] == bad[1] && good[2] == bad[2]
    ensures ParseSection(bad).section.length == ParseSection(good).section.length
  {
    assert good[1..3] == bad[1..3];
  }
}
