/** ts/codecs/aac, ac3 and eac3/transformer.go. The three types are the same code
  * around three header readers; `codec` selects the reader and when the CBC state
  * is reset.
  */
module AudioTransformer {
  import opened Bytes
  import opened Cipher
  import opened Wrappers
  import opened AudioFrames
  import opened AudioStream
  import Q = PesQueues

  datatype Failure =
    | PreviousPESOpen
    | HeaderTooShort
    | PayloadOutsidePES
    | NoOpenPES
    | PESStillOpen
    | BadFrame(error: AudioFrames.Error)
    | TruncatedFrame

  /** Only E-AC-3 has frames that continue a chain. */
  ghost predicate ChainsOnlyEAC3(codec: Codec, read: Reader) {
    forall b {:trigger read(b)} :: read(b).Good? && codec != EAC3 ==> read(b).header.independent
  }

  lemma ReaderChains(codec: Codec)
    ensures ChainsOnlyEAC3(codec, ReaderOf(codec))
  {
  }

  /** Whether the stream received so far is refused, as one call from the start. */
  function Verdict(read: Reader, keys: Keys, stream: seq<byte>): Option<Failure> {
    var r := ProcessAll(read, keys, Init.(buffer := stream));
    if r.Refused? then Some(BadFrame(r.error)) else None
  }

  ghost predicate UnfoldSofar(k: int) {
    true
  }

  /** Treating `stream` as one call from the start leaves state s and has sent `images`. */
  ghost predicate Sofar(read: Reader, keys: Keys, stream: seq<byte>, s: State, images: Images) {
    && StateOk(read, s)
    && forall k {:trigger UnfoldSofar(k)} :: UnfoldSofar(k) ==>
      var r := ProcessAll(read, keys, Init.(buffer := stream));
      r.Accepted? && r.state == s && images == Singles(r.out)
  }

  /** More data arrives and is processed as far as possible. */
  lemma SofarFurther(read: Reader, keys: Keys, stream: seq<byte>, s: State, images: Images, more: seq<byte>)
    requires Sofar(read, keys, stream, s, images)
    ensures StateOk(read, With(s, more))
    ensures var r := ProcessAll(read, keys, With(s, more));
      Verdict(read, keys, stream + more) == if r.Refused? then Some(BadFrame(r.error)) else None
    ensures ProcessAll(read, keys, With(s, more)).Accepted? ==>
      Sofar(read, keys, stream + more, ProcessAll(read, keys, With(s, more)).state,
            images + Singles(ProcessAll(read, keys, With(s, more)).out))
  {
    assert UnfoldSofar(0);
    CallsCompose(read, keys, Init.(buffer := stream), more);
    var r := ProcessAll(read, keys, With(s, more));
    if r.Accepted? {
      SinglesConcat(ProcessAll(read, keys, Init.(buffer := stream)).out, r.out);
    }
  }

  lemma SofarInit(read: Reader, keys: Keys)
    ensures StateOk(read, State(None, None, [])) && Sofar(read, keys, [], State(None, None, []), [])
  {
    ReaderEmpty(read);
    assert ProcessAll(read, keys, Init.(buffer := [])) == Accepted(Init, []);
    assert Singles([]) == [];
  }

  lemma SofarResult(read: Reader, keys: Keys, stream: seq<byte>, s: State, images: Images)
    requires Sofar(read, keys, stream, s, images)
    ensures var r := ProcessAll(read, keys, Init.(buffer := stream));
      r.Accepted? && r.state == s && images == Singles(r.out)
  {
    assert UnfoldSofar(0);
  }

  ghost predicate UnfoldValid(k: int) {
    true
  }

  class Transformer {
    const codec: Codec
    const read: Reader
    const queue: Q.PESQueue
    const block: CBCEncryptor

    /** Everything a call may change. */
    ghost const repr: set<object>

    var inputPESOpen: bool
    var buffer: seq<byte>
    /** The setup data signalled to the PMT; configSent is signalled.Some?. */
    var signalled: Option<seq<byte>>

    /** Every elementary-stream byte received so far. */
    ghost var stream: seq<byte>
    /** The chain of the framing machine; E-AC-3 keeps it in the cryptor. */
    ghost var chain: Option<Block>

    ghost function Machine(): State
      reads this
    {
      State(signalled, chain, buffer)
    }

    ghost predicate Ready()
      reads this, block, queue, queue.observer
    {
      && ChainsOnlyEAC3(codec, read)
      && queue.Valid()
      && StateOk(read, Machine())
      && (codec == EAC3 ==> chain == block.mode)
    }

    /** The first line is the byte accounting. */
    ghost predicate Inv()
      reads this, block, queue, queue.observer
    {
      && Ready() && queue.owed == |buffer| && inputPESOpen == queue.open
      && Sofar(read, block.keys, stream, Machine(), queue.passedOn)
    }

    ghost predicate Valid()
      reads this, block, queue, queue.observer
    {
      forall k {:trigger UnfoldValid(k)} :: UnfoldValid(k) ==> Inv()
    }

    constructor (codec: Codec, keys: Keys)
      ensures Valid() && stream == [] && queue.received == [] && queue.events == [] && !inputPESOpen
      ensures this.codec == codec && read == ReaderOf(codec) && block.keys == keys && signalled == None
      ensures fresh(queue) && fresh(queue.observer) && fresh(block) && repr == {this, block, queue}
    {
      this.codec := codec;
      read := ReaderOf(codec);
      var b := new CBCEncryptor(keys);
      var q := new Q.PESQueue();
      block, queue, repr := b, q, {this, b, q};
      inputPESOpen, buffer, signalled, stream, chain := false, [], None, [], None;
      new;
      ReaderChains(codec);
      NothingReceived();
    }

    lemma NothingReceived()
      requires queue.Valid() && queue.owed == 0 && !queue.open && queue.passedOn == []
      requires !inputPESOpen && Machine() == State(None, None, []) && stream == []
      requires ChainsOnlyEAC3(codec, read) && block.mode.None?
      ensures Valid()
    {
      SofarInit(read, block.keys);
    }

    /** write: split by the queue. The "missing PES" error cannot occur. */
    method Write(data: seq<byte>)
      requires queue.Valid() && queue.owed >= |data|
      modifies queue
      ensures queue.Valid() && queue.owed == old(queue.owed) - |data|
      ensures queue.passedOn == old(queue.passedOn) + Singles(data)
      ensures queue.received == old(queue.received) && queue.open == old(queue.open)
    {
      ghost var sent := queue.passedOn;
      var k := 0;
      assert sent + Singles(data[..0]) == sent;
      while k < |data|
        invariant 0 <= k <= |data|
        invariant queue.Valid() && queue.owed == old(queue.owed) - k
        invariant queue.passedOn == sent + Singles(data[..k])
        invariant queue.received == old(queue.received) && queue.open == old(queue.open)
      {
        queue.OwedByFirst();
        if |queue.pes| == 0 || queue.pes[0].bytes == 0 {
          assert false;
        }
        var n := if |data| - k < queue.pes[0].bytes then |data| - k else queue.pes[0].bytes;
        FlattenSingles(data[k..k + n]);
        queue.WriteFirst(n, data[k..k + n], Singles(data[k..k + n]));
        assert data[..k + n] == data[..k] + data[k..k + n];
        SinglesConcat(data[..k], data[k..k + n]);
        ConcatAssociates(sent, Singles(data[..k]), Singles(data[k..k + n]));
        k := k + n;
      }
      assert data[..k] == data;
    }

    /** When a frame starts a new chain: AAC and AC-3 reset only if something is encrypted. */
    method PrepareChain(h: Header)
      requires block.mode.Some? || h.independent
      requires codec != EAC3 ==> h.independent
      modifies block
      ensures codec == EAC3 || ProtectedSize(h) > 0 ==> block.mode == Some(if h.independent then block.keys.iv
        else old(block.mode).value)
    {
      if codec == EAC3 {
        if h.independent {
          block.Reset();
        }
      } else if ProtectedSize(h) > 0 {
        block.Reset();
      }
    }

    /** Encrypts a whole frame in place. CryptBlocks never runs before Reset. */
    method SealInPlace(h: Header) returns (sealed: seq<byte>)
      requires h.size <= |buffer|
      requires block.mode.Some? || h.independent
      requires codec != EAC3 ==> h.independent
      modifies block
      ensures var start := if h.independent then block.keys.iv else old(block.mode).value;
        && sealed == SealFrame(block.keys, start, h, buffer[..h.size])
        && (codec == EAC3 ==> block.mode == Some(CbcChain(block.keys, start, Protected(h, buffer[..h.size]))))
    {
      hide ProtectedSize, Protected, Cbc;
      PrepareChain(h);
      var n := ProtectedSize(h);
      if n == 0 {
        return buffer[..h.size];
      }
      var frame := new byte[h.size](i requires 0 <= i < h.size <= |buffer| reads this => buffer[i]);
      assert frame[..] == buffer[..h.size];
      ProtectedSlice(h, buffer[..h.size]);
      assert frame[h.lead..h.lead + n] == frame[..][h.lead..h.lead + n];
      var ok := block.CryptBlocks(frame, h.lead, h.lead + n);
      sealed := frame[..];
    }

    /** The frame at the front of the buffer is complete: encrypt it, send it, drop it. */
    method SendFrame(h: Header)
      requires Ready() && queue.owed == |buffer|
      requires read(buffer) == Good(h) && h.size <= |buffer|
      requires signalled.Some?
      modifies this`buffer, this`chain, block, queue
      ensures Ready() && queue.owed == |buffer|
      ensures var e := Process(read, block.keys, old(Machine()));
        && e.Emit? && Machine() == e.next
        && queue.passedOn == old(queue.passedOn) + Singles(e.frame)
        && queue.received == old(queue.received) && queue.open == old(queue.open)
    {
      ghost var start := if h.independent then block.keys.iv else chain.value;
      ghost var frame := buffer[..h.size];
      var sealed := SealInPlace(h);
      Write(sealed);
      chain := Some(EndChain(block.keys, h, start, frame));
      buffer := buffer[h.size..];
    }

    /** The first header of a stream is signalled to the PMT. */
    method SignalFirst(h: Header) returns (err: Option<Failure>)
      requires Ready() && read(buffer) == Good(h)
      modifies this`signalled
      ensures err == if old(signalled).None? && !h.independent then Some(BadFrame(IndependentFrameRequired)) else None
      ensures err == None ==> Ready() && signalled.Some?
      ensures err == None ==> ProcessAll(read, block.keys, Machine()) == ProcessAll(read, block.keys, old(Machine()))
    {
      if signalled.None? {
        if !h.independent {
          return Some(BadFrame(IndependentFrameRequired));
        }
        SetupOnce(read, block.keys, Machine(), h);
        signalled := Some(h.setup);
      }
      return None;
    }

    /** processFrames */
    method ProcessBuffer() returns (err: Option<Failure>)
      requires Ready() && queue.owed == |buffer|
      modifies this`buffer, this`signalled, this`chain, block, queue
      ensures match ProcessAll(read, block.keys, old(Machine()))
        case Refused(e) => err == Some(BadFrame(e))
        case Accepted(s, out) =>
          && err == None && Ready() && queue.owed == |buffer| && Machine() == s
          && queue.passedOn == old(queue.passedOn) + Singles(out)
          && queue.received == old(queue.received) && queue.open == old(queue.open)
    {
      ghost var sent, out: seq<byte> := queue.passedOn, [];
      ghost var whole := ProcessAll(read, block.keys, Machine());
      assert sent + Singles([]) == sent;
      Prefixed0(whole);
      while true
        invariant Ready() && queue.owed == |buffer|
        invariant queue.passedOn == sent + Singles(out)
        invariant queue.received == old(queue.received) && queue.open == old(queue.open)
        invariant whole == Prefixed(out, ProcessAll(read, block.keys, Machine()))
        decreases |buffer|
      {
        var head := read(buffer);
        if head.Bad? {
          return Some(BadFrame(head.error));
        }
        if head.Short? {
          assert out + [] == out;
          return None;
        }
        var h := head.header;
        err := SignalFirst(h);
        if err != None {
          return;
        }
        if |buffer| < h.size {
          assert out + [] == out;
          return None;
        }
        ghost var e := Process(read, block.keys, Machine());
        SendFrame(h);
        PrefixedFurther(out, e.frame, ProcessAll(read, block.keys, Machine()));
        SinglesConcat(out, e.frame);
        ConcatAssociates(sent, Singles(out), Singles(e.frame));
        out := out + e.frame;
      }
    }

    // ---- the PESHandler methods ----

    method PESHeader(header: seq<byte>) returns (err: Option<Failure>)
      requires Valid()
      modifies this, queue
      ensures Valid() && stream == old(stream)
      ensures err == if old(inputPESOpen) then Some(PreviousPESOpen) else if |header| < 6 then
        Some(HeaderTooShort) else None
      ensures err == None ==> inputPESOpen && queue.received == old(queue.received) + [Q.Input(header, 0, false)]
      ensures err != None ==> inputPESOpen == old(inputPESOpen) && queue.received == old(queue.received)
    {
      assert UnfoldValid(0);
      if inputPESOpen {
        return Some(PreviousPESOpen);
      }
      if |header| < 6 {
        return Some(HeaderTooShort);
      }
      queue.Open(header, false);
      inputPESOpen := true;
      return None;
    }

    method PESPayload(payload: seq<byte>) returns (err: Option<Failure>)
      requires Valid()
      modifies this, block, queue
      ensures !old(inputPESOpen) ==> err == Some(PayloadOutsidePES)
      ensures old(inputPESOpen) ==> err == Verdict(read, block.keys, old(stream) + payload)
      ensures err == None ==> Valid() && inputPESOpen && stream == old(stream) + payload && old(queue.received) != []
      ensures err == None ==> var was := Q.Last(old(queue.received));
        queue.received == Q.ReplaceLast(old(queue.received), was.(size := was.size + |payload|))
    {
      if !inputPESOpen {
        return Some(PayloadOutsidePES);
      }
      assert UnfoldValid(0);
      err := Absorb(payload);
    }

    method Absorb(payload: seq<byte>) returns (err: Option<Failure>)
      requires Inv() && inputPESOpen
      modifies this, block, queue
      ensures err == Verdict(read, block.keys, old(stream) + payload)
      ensures err == None ==> Inv() && inputPESOpen && stream == old(stream) + payload && old(queue.received) != []
      ensures err == None ==> var was := Q.Last(old(queue.received));
        queue.received == Q.ReplaceLast(old(queue.received), was.(size := was.size + |payload|))
    {
      ghost var m, sent := Machine(), queue.passedOn;
      SofarFurther(read, block.keys, stream, m, sent, payload);
      buffer := buffer + payload;
      assert Machine() == With(m, payload);
      queue.Charge(|payload|);
      err := ProcessBuffer();
      stream := stream + payload;
      ghost var r := ProcessAll(read, block.keys, With(m, payload));
      if err == None {
        assert Machine() == r.state && queue.passedOn == sent + Singles(r.out);
        assert Sofar(read, block.keys, stream, r.state, sent + Singles(r.out));
      }
    }

    method PESEnd() returns (err: Option<Failure>)
      requires Valid()
      modifies this, queue
      ensures Valid() && stream == old(stream) && !inputPESOpen
      ensures err == if old(inputPESOpen) then None else Some(NoOpenPES)
      ensures err == None ==> old(queue.received) != []
      ensures err == None ==> var was := Q.Last(old(queue.received));
        queue.received == Q.ReplaceLast(old(queue.received), was.(ended := true))
      ensures err != None ==> queue.received == old(queue.received)
    {
      assert UnfoldValid(0);
      if !inputPESOpen {
        return Some(NoOpenPES);
      }
      queue.Close();
      inputPESOpen := false;
      return None;
    }

    /** What has been signalled is the setup data that the stream so far has shown. */
    lemma SignalledIs()
      requires Valid()
      ensures ProcessAll(read, block.keys, Init.(buffer := stream)).Accepted?
      ensures signalled == ProcessAll(read, block.keys, Init.(buffer := stream)).state.setup
    {
      assert UnfoldValid(0);
      SofarResult(read, block.keys, stream, Machine(), queue.passedOn);
    }

    /** What holds of the queue between calls. */
    lemma QueueIsValid()
      requires Valid()
      ensures queue.Valid() && inputPESOpen == queue.open
    {
      assert UnfoldValid(0);
    }

    ghost method Observe()
      requires Valid()
      modifies queue.observer
      ensures Valid() && queue.observer.seen == queue.events
    {
      assert UnfoldValid(0);
      queue.Observe();
    }

    /** Succeeds exactly when no PES is open and the stream consists of whole frames;
      * then every PES has been sent, as long as it came in. The "incomplete PES" error
      * cannot occur. */
    method Flush() returns (err: Option<Failure>)
      requires Valid()
      modifies this, block, queue
      ensures err == None <==> !old(inputPESOpen) && WholeFrames(read, old(stream))
      ensures err == None ==> queue.Valid() && queue.received == old(queue.received) && queue.pes == []
      ensures err == None ==>
        var out := Flatten(SealFrames(read, block.keys, block.keys.iv, SplitFrames(read, old(stream)).value));
        |out| == Q.TotalSize(queue.received) && Q.Group(queue.events) == Some(Q.Share(queue.received, Singles(out)))
      ensures err == None ==> signalled == old(signalled)
      ensures err == None && old(stream) != [] ==>
        signalled == Some(HeaderOf(read, SplitFrames(read, old(stream)).value[0]).setup)
    {
      assert UnfoldValid(0);
      if inputPESOpen {
        return Some(PESStillOpen);
      }
      SofarFurther(read, block.keys, stream, Machine(), queue.passedOn, []);
      SofarResult(read, block.keys, stream, Machine(), queue.passedOn);
      ProcessIsSplit(read, block.keys, stream);
      assert With(Machine(), []) == Machine() && stream + [] == stream;
      ghost var again := ProcessAll(read, block.keys, Machine());
      err := ProcessBuffer();
      if err != None {
        return;
      }
      SofarResult(read, block.keys, stream, again.state, old(queue.passedOn) + Singles(again.out));
      if |buffer| != 0 {
        return Some(TruncatedFrame);
      }
      queue.Settle();
      queue.AllDelivered();
      if |queue.pes| != 0 {
        assert false;
      }
    }
  }

  /** A stream of whole frames, of which the first is independent. */
  predicate WholeFrames(read: Reader, data: seq<byte>) {
    SplitFrames(read, data).Some? && FramesOk(read, SplitFrames(read, data).value)
  }

  /** Output sent earlier, in front of what is still to come. */
  function Prefixed(out: seq<byte>, r: Result): Result {
    match r
    case Refused(e) => Refused(e)
    case Accepted(s, more) => Accepted(s, out + more)
  }

  lemma Prefixed0(r: Result)
    ensures Prefixed([], r) == r
  {
    if r.Accepted? {
      assert [] + r.out == r.out;
    }
  }

  lemma PrefixedFurther(out: seq<byte>, frame: seq<byte>, r: Result)
    ensures Prefixed(out, Prefixed(frame, r)) == Prefixed(out + frame, r)
  {
    if r.Accepted? {
      ConcatAssociates(out, frame, r.out);
    }
  }

  /** Signalling the setup does not change what happens next. */
  lemma SetupOnce(read: Reader, keys: Keys, s: State, h: Header)
    requires StateOk(read, s) && s.setup.None? && read(s.buffer) == Good(h) && h.independent
    ensures StateOk(read, s.(setup := Some(h.setup)))
    ensures ProcessAll(read, keys, s.(setup := Some(h.setup))) == ProcessAll(read, keys, s)
  {
  }
}
