/** codecs.MediaTransformer: any of the codec transformers behind one set of calls. */
module MediaTransformers {
  import opened Bytes
  import opened Cipher
  import opened Wrappers
  import opened AnnexB
  import opened AvcCore
  import opened AudioFrames
  import opened AudioStream
  import A = AvcTransformer
  import AR = AvcRun
  import U = AudioTransformer
  import UR = AudioRun
  import Q = PesQueues

  datatype MediaTransformer = Avc(avc: A.Transformer) | Audio(audio: U.Transformer)

  /** What the transformer makes of a whole elementary stream; None for a stream it refuses. */
  datatype Codec = AvcCodec(cfg: Config) | AudioCodec(read: Reader, keys: Keys)

  ghost function ImagesOf(c: Codec, stream: seq<byte>): Option<Images> {
    match c
    case AvcCodec(cfg) => if Split(stream).Some? then Some(StreamImages(cfg, Split(stream).value)) else None
    case AudioCodec(read, keys) =>
      if U.WholeFrames(read, stream) then Some(Singles(Flatten(SealFrames(read, keys, keys.iv, SplitFrames(read,
        stream).value))))
      else None
  }

  /** Whether the transformer goes along with a stream as far as it has come. */
  ghost predicate Takes(c: Codec, stream: seq<byte>) {
    match c
    case AvcCodec(cfg) => FeedAll(cfg, AvcCore.Init, stream).Done?
    case AudioCodec(read, keys) => ProcessAll(read, keys, AudioFrames.Init.(buffer := stream)).Accepted?
  }

  /** It goes along with every beginning of a stream that it accepts. */
  lemma TakesBeginning(c: Codec, stream: seq<byte>, more: seq<byte>)
    requires ImagesOf(c, stream + more).Some?
    ensures Takes(c, stream)
  {
    match c {
      case AvcCodec(cfg) =>
        if FeedAll(cfg, AvcCore.Init, stream).Failed? {
          AR.PrefixRefused(cfg, stream, more);
        }
      case AudioCodec(read, keys) =>
        if ProcessAll(read, keys, AudioFrames.Init.(buffer := stream)).Refused? {
          UR.PrefixRefused(read, keys, stream, more);
        }
    }
  }

  /** Being refused is for good. */
  lemma TakesLess(c: Codec, stream: seq<byte>, more: seq<byte>)
    requires Takes(c, stream + more)
    ensures Takes(c, stream)
  {
    match c {
      case AvcCodec(cfg) => FeedConcat(cfg, AvcCore.Init, stream, more);
      case AudioCodec(read, keys) => CallsCompose(read, keys, AudioFrames.Init.(buffer := stream), more);
    }
  }

  /** What has been signalled to the PMT after a stream that is taken. The AVC transformer
    * signals when it is made. */
  ghost function SetupOf(c: Codec, stream: seq<byte>): Option<seq<byte>>
    requires Takes(c, stream)
  {
    match c
    case AvcCodec(_) => Some([])
    case AudioCodec(read, keys) => ProcessAll(read, keys, AudioFrames.Init.(buffer := stream)).state.setup
  }

  /** Once something has been signalled it stays. */
  lemma SetupStays(c: Codec, stream: seq<byte>, more: seq<byte>)
    requires Takes(c, stream) && Takes(c, stream + more) && SetupOf(c, stream).Some?
    ensures SetupOf(c, stream + more) == SetupOf(c, stream)
  {
    match c {
      case AvcCodec(_) =>
      case AudioCodec(read, keys) =>
        CallsCompose(read, keys, AudioFrames.Init.(buffer := stream), more);
        SetupSentOnce(read, keys, With(ProcessAll(read, keys, AudioFrames.Init.(buffer := stream)).state, more));
    }
  }

  /** The AVC transformer makes every PES unbounded. */
  function HeaderFor(c: Codec, header: seq<byte>): seq<byte> {
    if c.AvcCodec? && |header| >= 6 then A.ClearLength(header) else header
  }

  ghost function CodecOf(m: MediaTransformer): Codec {
    match m
    case Avc(t) => AvcCodec(t.cfg)
    case Audio(t) => AudioCodec(t.read, t.block.keys)
  }

  function Queue(m: MediaTransformer): Q.PESQueue {
    match m case Avc(t) => t.queue case Audio(t) => t.queue
  }

  /** Everything a call may change. */
  ghost function Objects(m: MediaTransformer): set<object> {
    match m case Avc(t) => t.repr case Audio(t) => t.repr
  }

  function Self(m: MediaTransformer): object {
    match m case Avc(t) => t case Audio(t) => t
  }

  ghost predicate Framed(m: MediaTransformer) {
    match m
    case Avc(t) => t.repr == {t, t.pattern, t.escaper, t.queue} + if t.block == null then {} else {t.block}
    case Audio(t) => t.repr == {t, t.block, t.queue}
  }

  ghost predicate Valid(m: MediaTransformer)
    reads Objects(m), Queue(m).observer
    ensures Valid(m) ==> Self(m) in Objects(m) && Queue(m) in Objects(m)
  {
    Framed(m) && match m case Avc(t) => t.Valid() case Audio(t) => t.Valid()
  }

  ghost function Stream(m: MediaTransformer): seq<byte>
    reads Self(m)
  {
    match m case Avc(t) => t.stream case Audio(t) => t.stream
  }

  ghost function IsOpen(m: MediaTransformer): bool
    reads Self(m)
  {
    match m case Avc(t) => t.inputPESOpen case Audio(t) => t.inputPESOpen
  }

  /** The setup data that has been signalled, if it has. */
  function Setup(m: MediaTransformer): Option<seq<byte>>
    reads Self(m)
  {
    match m case Avc(_) => Some([]) case Audio(t) => t.signalled
  }

  lemma SetupIs(m: MediaTransformer)
    requires Valid(m)
    ensures Takes(CodecOf(m), Stream(m)) && Setup(m) == SetupOf(CodecOf(m), Stream(m))
  {
    match m {
      case Avc(t) => t.Taken();
      case Audio(t) => t.SignalledIs();
    }
  }

  lemma QueueIsValid(m: MediaTransformer)
    requires Valid(m)
    ensures Queue(m).Valid() && IsOpen(m) == Queue(m).open
  {
    match m {
      case Avc(t) => t.QueueIsValid();
      case Audio(t) => t.QueueIsValid();
    }
  }

  ghost method Observe(m: MediaTransformer)
    requires Valid(m)
    modifies Queue(m).observer
    ensures Valid(m) && Queue(m).observer.seen == Queue(m).events
  {
    match m {
      case Avc(t) => t.Observe();
      case Audio(t) => t.Observe();
    }
  }

  method PESHeader(m: MediaTransformer, header: seq<byte>) returns (ok: bool)
    requires Valid(m)
    modifies Objects(m)
    ensures ok <==> !old(IsOpen(m)) && |header| >= 6
    ensures ok ==> Valid(m) && IsOpen(m) && Stream(m) == old(Stream(m))
    ensures ok ==> Queue(m).received == old(Queue(m).received) + [Q.Input(HeaderFor(CodecOf(m), header), 0, false)]
  {
    match m {
      case Avc(t) =>
        var err := t.PESHeader(header);
        ok := err == None;
      case Audio(t) =>
        var err := t.PESHeader(header);
        ok := err == None;
    }
  }

  method PESPayload(m: MediaTransformer, data: seq<byte>) returns (ok: bool)
    requires Valid(m)
    modifies Objects(m)
    ensures ok <==> old(IsOpen(m)) && Takes(CodecOf(m), old(Stream(m)) + data)
    ensures ok ==> Valid(m) && IsOpen(m) && Stream(m) == old(Stream(m)) + data && old(Queue(m).received) != []
    ensures ok ==> var was := Q.Last(old(Queue(m).received));
      Queue(m).received == Q.ReplaceLast(old(Queue(m).received), was.(size := was.size + |data|))
  {
    match m {
      case Avc(t) =>
        var err := t.PESPayload(data);
        ok := err == None;
      case Audio(t) =>
        var err := t.PESPayload(data);
        ok := err == None;
    }
  }

  method PESEnd(m: MediaTransformer) returns (ok: bool)
    requires Valid(m)
    modifies Objects(m)
    ensures ok <==> old(IsOpen(m))
    ensures ok ==> Valid(m) && !IsOpen(m) && Stream(m) == old(Stream(m)) && old(Queue(m).received) != []
    ensures ok ==> var was := Q.Last(old(Queue(m).received));
      Queue(m).received == Q.ReplaceLast(old(Queue(m).received), was.(ended := true))
  {
    match m {
      case Avc(t) =>
        var err := t.PESEnd();
        ok := err == None;
      case Audio(t) =>
        var err := t.PESEnd();
        ok := err == None;
    }
  }

  method Flush(m: MediaTransformer) returns (ok: bool)
    requires Valid(m)
    modifies Objects(m)
    ensures ok <==> !old(IsOpen(m)) && ImagesOf(CodecOf(m), old(Stream(m))).Some?
    ensures ok ==> Queue(m).Valid() && Queue(m).received == old(Queue(m).received) && Queue(m).pes == []
    ensures ok ==> Setup(m) == old(Setup(m))
    ensures ok ==> var images := ImagesOf(CodecOf(m), old(Stream(m))).value;
      |images| == Q.TotalSize(Queue(m).received) && Q.Group(Queue(m).events) == Some(Q.Share(Queue(m).received, images))
  {
    match m {
      case Avc(t) =>
        var err := t.Flush();
        ok := err == None;
      case Audio(t) =>
        var err := t.Flush();
        ok := err == None;
    }
  }
}
