/** ts/internal/transformer/factory.go: which transformer a stream type gets, and what its
  * entry in the PMT is to become (pmt.go in ts/codecs/avc, aac, ac3 and eac3).
  */
module StreamFactory {
  import opened Bytes
  import opened Cipher
  import AD = AdaptationField
  import opened AvcCore
  import M = MediaTransformers
  import A = AvcTransformer
  import U = AudioTransformer
  import AF = AudioFrames
  import opened Aligner
  import opened PsiSections
  import opened PmtGate
  import opened MediaStreams

  datatype Kind = AvcStream(keys: Keys, enabled: bool) | AudioStream(codec: AF.Codec, keys: Keys)

  ghost function CodecFor(k: Kind): M.Codec {
    match k
    case AvcStream(keys, enabled) => M.AvcCodec(Config(keys, enabled))
    case AudioStream(codec, keys) => M.AudioCodec(AF.ReaderOf(codec), keys)
  }

  method NewTransformer(k: Kind) returns (m: M.MediaTransformer)
    ensures M.Valid(m) && M.CodecOf(m) == CodecFor(k)
    ensures M.Stream(m) == [] && !M.IsOpen(m) && M.Queue(m).received == [] && M.Queue(m).events == []
    ensures fresh(M.Objects(m)) && fresh(M.Queue(m).observer) && M.Queue(m).observer !in M.Objects(m)
  {
    match k {
      case AvcStream(keys, enabled) =>
        var t := new A.Transformer(keys, enabled);
        m := M.Avc(t);
      case AudioStream(codec, keys) =>
        var t := new U.Transformer(codec, keys);
        m := M.Audio(t);
    }
  }

  method NewStream(pid: nat, k: Kind) returns (s: MediaStream)
    ensures s.Valid() && s.sink.source == [] && s.sink.finished == [] && s.sink.registered == []
    ensures M.CodecOf(s.transformer) == CodecFor(k) && s.pid == s.sink.packetizer.pid == pid
    ensures fresh(s.collector) && fresh(s.sink) && fresh(s.sink.packetizer) && fresh(s.sink.packetizer.payload)
    ensures fresh(M.Objects(s.transformer)) && fresh(M.Queue(s.transformer).observer)
  {
    var sink := new OutputAligner(pid);
    var m := NewTransformer(k);
    s := new MediaStream(pid, sink, m);
  }

  /** NewTransformer encrypts whatever it supports. */
  function KindFor(streamType: byte, keys: Keys): Kind {
    if streamType == 0x1B then AvcStream(keys, true)
    else AudioStream(if streamType == 0x0F then AF.AAC else if streamType == 0x81 then AF.AC3 else AF.EAC3, keys)
  }

  /** The new stream type, the format the private data indicator names, and the setup format. */
  function Formats(k: Kind): (r: (byte, nat, seq<byte>)) {
    match k
    case AvcStream(_, _) => (0xDB, 0x7A617663, [])
    case AudioStream(AAC, _) => (0xCF, 0x61616364, [0x7A, 0x61, 0x61, 0x63])
    case AudioStream(AC3, _) => (0xC1, 0x61633364, [0x7A, 0x61, 0x63, 0x33])
    case AudioStream(EAC3, _) => (0xC2, 0x65633364, [0x7A, 0x65, 0x63, 0x33])
  }

  /** patchPMT's descriptors: for audio the setup data travels in a registration descriptor. */
  function Indicator(k: Kind): Descriptor {
    PrivateDataIndicator(4, Formats(k).1)
  }

  function SetupDescriptor(k: Kind, setup: seq<byte>): Descriptor {
    var info := Formats(k).2 + [0, 0, 1, |setup| % 256] + setup;
    Registration((4 + |info|) % 256, 0x61706164, info)
  }

  function PatchFor(k: Kind, setup: seq<byte>): Patch {
    (s: ElementaryStream) => ElementaryStream(Formats(k).0, s.pid, Patched(k, setup, s.descriptors))
  }

  function Patched(k: Kind, setup: seq<byte>, ds: seq<Descriptor>): seq<Descriptor> {
    if k.AvcStream? then ds + [Indicator(k)] else ds + [Indicator(k)] + [SetupDescriptor(k, setup)]
  }

  lemma NewDescriptorsOk(k: Kind, setup: seq<byte>)
    requires |setup| <= 10
    ensures DescriptorOk(Indicator(k)) && |Content(Indicator(k))| == 4
    ensures DescriptorOk(SetupDescriptor(k, setup)) && |Content(SetupDescriptor(k, setup))| <= 22
  {
  }

  lemma LoopOkSnoc(ds: seq<Descriptor>, x: Descriptor)
    requires LoopOk(ds) && DescriptorOk(x) && |Content(x)| < 256 && DescriptorsLength(ds) + 2 + |Content(x)| < 0x1000
    ensures LoopOk(ds + [x]) && DescriptorsLength(ds + [x]) == DescriptorsLength(ds) + 2 + |Content(x)|
  {
    LoopSnoc(ds, x);
    assert |Content(x)| % 256 == |Content(x)|;
  }

  lemma PatchedOk(k: Kind, setup: seq<byte>, ds: seq<Descriptor>)
    requires LoopOk(ds) && DescriptorsLength(ds) + 30 < 0x1000 && |setup| <= 10
    ensures LoopOk(Patched(k, setup, ds))
  {
    NewDescriptorsOk(k, setup);
    LoopOkSnoc(ds, Indicator(k));
    LoopOkSnoc(ds + [Indicator(k)], SetupDescriptor(k, setup));
  }

  /** The entry that a patch makes can be written, if the old one leaves 30 bytes of room. */
  lemma PatchedLoopOk(k: Kind, setup: seq<byte>, s: ElementaryStream)
    requires LoopOk(s.descriptors) && DescriptorsLength(s.descriptors) + 30 < 0x1000 && |setup| <= 10
    ensures LoopOk(PatchFor(k, setup)(s).descriptors) && PatchFor(k, setup)(s).pid == s.pid
  {
    PatchedOk(k, setup, s.descriptors);
  }

  // ---- what a player reads ----

  lemma {:induction false} WriteDescriptorsSnoc(ds: seq<Descriptor>, x: Descriptor)
    ensures WriteDescriptors(ds + [x]) == WriteDescriptors(ds) + WriteDescriptor(x)
    decreases |ds|
  {
    if ds == [] {
      assert ds + [x] == [x] && [x][1..] == [];
      assert WriteDescriptor(x) + [] == WriteDescriptor(x);
    } else {
      assert (ds + [x])[1..] == ds[1..] + [x];
      WriteDescriptorsSnoc(ds[1..], x);
      ConcatAssociates(WriteDescriptor(ds[0]), WriteDescriptors(ds[1..]), WriteDescriptor(x));
    }
  }

  lemma FourBytes(a: byte, b: byte, c: byte, d: byte)
    ensures AD.BigEndian(((a as int * 256 + b as int) * 256 + c as int) * 256 + d as int, 4) == [a, b, c, d]
  {
    var n1: nat := a;
    var n2 := n1 * 256 + b as int;
    var n3 := n2 * 256 + c as int;
    var n4 := n3 * 256 + d as int;
    assert AD.BigEndian(n1, 1) == AD.BigEndian(n1 / 256, 0) + [a];
    assert AD.BigEndian(n2, 2) == AD.BigEndian(n1, 1) + [b];
    assert AD.BigEndian(n3, 3) == AD.BigEndian(n2, 2) + [c];
    assert AD.BigEndian(n4, 4) == AD.BigEndian(n3, 3) + [d];
  }

  /** The registration descriptor: "apad", the format, version and setup. */
  function AudioSetup(format: seq<byte>, setup: seq<byte>): seq<byte>
    requires |format| == 4 && |setup| <= 10
  {
    [0x05, 12 + |setup|, 0x61, 0x70, 0x61, 0x64] + format + [0, 0, 1, |setup|] + setup
  }

  /** The entry `now` announces as Sample-AES what `was` announces in the clear: H.264, AAC ("aacd",
    * "zaac"), AC-3 ("ac3d", "zac3") or E-AC-3 ("ec3d", "zec3"). Its old descriptors are followed by a
    * private data indicator and, for audio, by the setup. */
  predicate Announces(was: ElementaryStream, now: ElementaryStream, setup: seq<byte>)
    requires |setup| <= 10
  {
    now.pid == was.pid &&
    var kept, written := WriteDescriptors(was.descriptors), WriteDescriptors(now.descriptors);
    if was.streamType == 0x1B then now.streamType == 0xDB && written == kept + [0x0F, 4, 0x7A, 0x61, 0x76, 0x63]
    else if was.streamType == 0x0F then
      now.streamType == 0xCF &&
      written == kept + [0x0F, 4, 0x61, 0x61, 0x63, 0x64] + AudioSetup([0x7A, 0x61, 0x61, 0x63], setup)
    else if was.streamType == 0x81 then
      now.streamType == 0xC1 &&
      written == kept + [0x0F, 4, 0x61, 0x63, 0x33, 0x64] + AudioSetup([0x7A, 0x61, 0x63, 0x33], setup)
    else
      was.streamType == 0x87 && now.streamType == 0xC2 &&
      written == kept + [0x0F, 4, 0x65, 0x63, 0x33, 0x64] + AudioSetup([0x7A, 0x65, 0x63, 0x33], setup)
  }

  lemma IndicatorBytes(k: Kind, a: byte, b: byte, c: byte, d: byte)
    requires Formats(k).1 == ((a as int * 256 + b as int) * 256 + c as int) * 256 + d as int
    ensures WriteDescriptor(Indicator(k)) == [0x0F, 4, a, b, c, d]
  {
    FourBytes(a, b, c, d);
  }

  lemma SetupBytes(k: Kind, setup: seq<byte>)
    requires k.AudioStream? && |setup| <= 10
    ensures |Formats(k).2| == 4 && WriteDescriptor(SetupDescriptor(k, setup)) == AudioSetup(Formats(k).2, setup)
  {
    FourBytes(0x61, 0x70, 0x61, 0x64);
    var info := Formats(k).2 + [0, 0, 1, |setup|] + setup;
    assert SetupDescriptor(k, setup) == Registration(12 + |setup|, 0x61706164, info);
    assert Content(SetupDescriptor(k, setup)) == [0x61, 0x70, 0x61, 0x64] + info;
  }

  /** Each stream type gets the entry of its own format. */
  lemma PatchAnnounces(s: ElementaryStream, keys: Keys, setup: seq<byte>)
    requires s.streamType in {0x1B, 0x0F, 0x81, 0x87} && |setup| <= 10
    ensures Announces(s, PatchFor(KindFor(s.streamType, keys), setup)(s), setup)
  {
    var k := KindFor(s.streamType, keys);
    WriteDescriptorsSnoc(s.descriptors, Indicator(k));
    if s.streamType == 0x1B {
      IndicatorBytes(k, 0x7A, 0x61, 0x76, 0x63);
    } else {
      WriteDescriptorsSnoc(s.descriptors + [Indicator(k)], SetupDescriptor(k, setup));
      SetupBytes(k, setup);
      if s.streamType == 0x0F {
        IndicatorBytes(k, 0x61, 0x61, 0x63, 0x64);
      } else if s.streamType == 0x81 {
        IndicatorBytes(k, 0x61, 0x63, 0x33, 0x64);
      } else {
        IndicatorBytes(k, 0x65, 0x63, 0x33, 0x64);
      }
    }
  }

  /** What is supported, and which transformer each stream type gets: H.264 encrypted, or one of the
    * three header readers; with encrypted input H.264 only. */
  lemma SupportedTypes(streamType: byte, keys: Keys)
    ensures Supported(streamType, true) <==> streamType == 0x1B
    ensures Supported(streamType, false) <==> streamType in {0x1B, 0x0F, 0x81, 0x87}
    ensures streamType == 0x1B ==> CodecFor(KindFor(streamType, keys)) == M.AvcCodec(Config(keys, true))
    ensures streamType == 0x0F ==> CodecFor(KindFor(streamType, keys)) == M.AudioCodec(AF.ReaderOf(AF.AAC), keys)
    ensures streamType == 0x81 ==> CodecFor(KindFor(streamType, keys)) == M.AudioCodec(AF.ReaderOf(AF.AC3), keys)
    ensures streamType == 0x87 ==> CodecFor(KindFor(streamType, keys)) == M.AudioCodec(AF.ReaderOf(AF.EAC3), keys)
  {
  }

  lemma {:induction false} LoopSnoc(ds: seq<Descriptor>, x: Descriptor)
    ensures DescriptorsLength(ds + [x]) == DescriptorsLength(ds) + 2 + |Content(x)| % 256
    decreases |ds|
  {
    if ds == [] {
      assert ds + [x] == [x] && [x][1..] == [];
    } else {
      assert (ds + [x])[1..] == ds[1..] + [x];
      LoopSnoc(ds[1..], x);
    }
  }
}
