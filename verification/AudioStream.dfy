/** The framing machine over a whole stream: it does not depend on how the stream
  * is cut, it computes the frame-by-frame definition, and it can be undone.
  */
module AudioStream {
  import opened Bytes
  import opened Cipher
  import opened Wrappers
  import opened AudioFrames

  datatype Result = Refused(error: Error) | Accepted(state: State, out: seq<byte>)

  /** processFrames: all the rounds that are possible now. */
  function ProcessAll(read: Reader, keys: Keys, s: State): (r: Result)
    requires StateOk(read, s)
    ensures r.Accepted? ==> StateOk(read, r.state) && |r.out| + |r.state.buffer| == |s.buffer|
    decreases |s.buffer|
  {
    match Process(read, keys, s)
    case Wait(w) => Accepted(w, [])
    case Failed(e) => Refused(e)
    case Emit(next, frame) =>
      match ProcessAll(read, keys, next)
      case Refused(e) => Refused(e)
      case Accepted(last, out) => Accepted(last, frame + out)
  }

  function With(s: State, more: seq<byte>): State {
    s.(buffer := s.buffer + more)
  }

  lemma WithOk(read: Reader, s: State, more: seq<byte>)
    requires StateOk(read, s)
    ensures StateOk(read, With(s, more))
  {
    if !read(s.buffer).Short? {
      ReaderStable(read, s.buffer, more);
    }
  }

  /** Calls with more data behind the buffer do the same rounds first. */
  lemma ProcessWith(read: Reader, keys: Keys, s: State, more: seq<byte>)
    requires StateOk(read, s)
    ensures StateOk(read, With(s, more))
    ensures Process(read, keys, s).Failed? ==> Process(read, keys, With(s, more)) == Process(read, keys, s)
    ensures Process(read, keys, s).Emit? ==>
      var e := Process(read, keys, s);
      StateOk(read, With(e.next, more)) && Process(read, keys, With(s, more)) == Emit(With(e.next, more), e.frame)
    ensures Process(read, keys, s).Wait? ==>
      var w := Process(read, keys, s).state;
      StateOk(read, With(w, more)) && Process(read, keys, With(w, more)) == Process(read, keys, With(s, more))
  {
    WithOk(read, s, more);
    var step := Process(read, keys, s);
    if !read(s.buffer).Short? {
      ReaderStable(read, s.buffer, more);
    }
    if step.Emit? {
      WithOk(read, step.next, more);
      var n := read(s.buffer).header.size;
      assert (s.buffer + more)[..n] == s.buffer[..n] && (s.buffer + more)[n..] == s.buffer[n..] + more;
    } else if step.Wait? {
      WithOk(read, step.state, more);
    }
  }

  /** Cutting the stream into calls changes nothing. */
  lemma {:induction false} CallsCompose(read: Reader, keys: Keys, s: State, more: seq<byte>)
    requires StateOk(read, s)
    ensures StateOk(read, With(s, more))
    ensures ProcessAll(read, keys, s).Refused? ==> ProcessAll(read, keys, With(s, more)) == ProcessAll(read, keys, s)
    ensures ProcessAll(read, keys, s).Accepted? ==>
      var r := ProcessAll(read, keys, s);
      StateOk(read, With(r.state, more)) &&
      ProcessAll(read, keys, With(s, more)) ==
        match ProcessAll(read, keys, With(r.state, more))
        case Refused(e) => Refused(e)
        case Accepted(last, out) => Accepted(last, r.out + out)
    decreases |s.buffer|
  {
    ProcessWith(read, keys, s, more);
    var step := Process(read, keys, s);
    if step.Emit? {
      CallsCompose(read, keys, step.next, more);
      var r := ProcessAll(read, keys, step.next);
      if r.Accepted? {
        var last := ProcessAll(read, keys, With(r.state, more));
        if last.Accepted? {
          ConcatAssociates(step.frame, r.out, last.out);
        }
      }
    } else if step.Wait? {
      var last := ProcessAll(read, keys, With(step.state, more));
      assert ProcessAll(read, keys, With(s, more)) == last;
      if last.Accepted? {
        assert [] + last.out == last.out;
      }
    }
  }

  /** The setup is sent once. */
  lemma {:induction false} SetupSentOnce(read: Reader, keys: Keys, s: State)
    requires StateOk(read, s) && s.setup.Some? && ProcessAll(read, keys, s).Accepted?
    ensures ProcessAll(read, keys, s).state.setup == s.setup
    decreases |s.buffer|
  {
    var step := Process(read, keys, s);
    if step.Emit? {
      SetupSentOnce(read, keys, step.next);
    }
  }

  // ---- the definition ----

  /** The frames of a stream; None when it does not consist of whole frames. */
  function SplitFrames(read: Reader, data: seq<byte>): Option<seq<seq<byte>>>
    decreases |data|
  {
    if data == [] then Some([])
    else
      var r := read(data);
      if !r.Good? || r.header.size > |data| then None
      else
        ReaderSize(read, data);
        match SplitFrames(read, data[r.header.size..])
        case None => None
        case Some(frames) => Some([data[..r.header.size]] + frames)
  }

  lemma {:induction false} SplitFramesSound(read: Reader, data: seq<byte>)
    requires SplitFrames(read, data).Some?
    ensures var frames := SplitFrames(read, data).value;
      Flatten(frames) == data && forall i :: 0 <= i < |frames| ==> FrameOk(read, frames[i])
    decreases |data|
  {
    if data != [] {
      var n := read(data).header.size;
      ReaderInFrame(read, data);
      ReaderSize(read, data);
      SplitFramesSound(read, data[n..]);
      assert data == data[..n] + data[n..];
      var frames := SplitFrames(read, data).value;
      assert frames[1..] == SplitFrames(read, data[n..]).value;
      forall i | 0 <= i < |frames| ensures FrameOk(read, frames[i]) {
        if i > 0 {
          assert frames[i] == frames[1..][i - 1];
        }
      }
    }
  }

  lemma {:induction false} SplitFramesComplete(read: Reader, frames: seq<seq<byte>>)
    requires forall i :: 0 <= i < |frames| ==> FrameOk(read, frames[i])
    ensures SplitFrames(read, Flatten(frames)) == Some(frames)
    decreases |frames|
  {
    if frames != [] {
      var f, rest := frames[0], Flatten(frames[1..]);
      ReaderStable(read, f, rest);
      ReaderSize(read, f);
      assert Flatten(frames) == f + rest;
      assert (f + rest)[..|f|] == f && (f + rest)[|f|..] == rest;
      SplitFramesComplete(read, frames[1..]);
      assert frames == [f] + frames[1..];
    }
  }

  /** From any state, whole frames are sealed one by one and nothing stays behind. */
  lemma {:induction false} ProcessFrames(read: Reader, keys: Keys, s: State, frames: seq<seq<byte>>)
    requires StateOk(read, s) && s.buffer == Flatten(frames)
    requires forall i :: 0 <= i < |frames| ==> FrameOk(read, frames[i])
    requires (s.setup.None? || s.chain.None?) && frames != [] ==> HeaderOf(read, frames[0]).independent
    ensures var r := ProcessAll(read, keys, s);
      r.Accepted? && r.state.buffer == [] &&
      r.out == Flatten(SealFrames(read, keys, if s.chain.None? then keys.iv else s.chain.value, frames))
    ensures s.setup.None? && frames != [] ==>
      ProcessAll(read, keys, s).state.setup == Some(HeaderOf(read, frames[0]).setup)
    ensures s.setup.Some? ==> ProcessAll(read, keys, s).state.setup == s.setup
    decreases |frames|
  {
    if frames != [] {
      var next := FirstFrame(read, keys, s, frames[0], Flatten(frames[1..]));
      AllButFirst(read, frames);
      ProcessFrames(read, keys, next, frames[1..]);
      EmitThen(read, keys, s, next, Process(read, keys, s).frame);
    } else {
      ReaderEmpty(read);
    }
  }

  lemma AllButFirst(read: Reader, frames: seq<seq<byte>>)
    requires frames != [] && forall i :: 0 <= i < |frames| ==> FrameOk(read, frames[i])
    ensures FrameOk(read, frames[0]) && forall i :: 0 <= i < |frames[1..]| ==> FrameOk(read, frames[1..][i])
  {
  }

  lemma EmitThen(read: Reader, keys: Keys, s: State, next: State, frame: seq<byte>)
    requires StateOk(read, s) && StateOk(read, next) && Process(read, keys, s) == Emit(next, frame)
    ensures ProcessAll(read, keys, s) ==
      match ProcessAll(read, keys, next)
      case Refused(e) => Refused(e)
      case Accepted(last, out) => Accepted(last, frame + out)
  {
  }

  /** The round that consumes a whole frame at the front of the buffer. */
  lemma FirstFrame(read: Reader, keys: Keys, s: State, f: seq<byte>, rest: seq<byte>) returns (next: State)
    requires StateOk(read, s) && s.buffer == f + rest && FrameOk(read, f)
    requires s.setup.None? || s.chain.None? ==> HeaderOf(read, f).independent
    ensures var h := HeaderOf(read, f);
      var chain := StartChain(keys, h, if s.chain.None? then keys.iv else s.chain.value);
      && Process(read, keys, s) == Emit(next, SealFrame(keys, chain, h, f))
      && StateOk(read, next) && next.buffer == rest
      && next.setup == Some(if s.setup.None? then h.setup else s.setup.value)
      && next.chain == Some(EndChain(keys, h, chain, f))
  {
    ReaderStable(read, f, rest);
    assert (f + rest)[..|f|] == f && (f + rest)[|f|..] == rest;
    next := Process(read, keys, s).next;
  }

  /** A stream that does not consist of whole frames never comes to an end. */
  lemma {:induction false} ProcessLeftover(read: Reader, keys: Keys, s: State)
    requires StateOk(read, s) && SplitFrames(read, s.buffer).None?
    ensures var r := ProcessAll(read, keys, s);
      r.Refused? || r.state.buffer != []
    decreases |s.buffer|
  {
    var step := Process(read, keys, s);
    if step.Emit? {
      ProcessLeftover(read, keys, step.next);
    }
  }

  /** The machine accepts a whole stream exactly when it consists of whole frames of
    * which the first is independent, and then it sends the sealed frames. */
  lemma ProcessIsSplit(read: Reader, keys: Keys, data: seq<byte>)
    ensures var r := ProcessAll(read, keys, Init.(buffer := data));
      var frames := SplitFrames(read, data);
      && (r.Accepted? && r.state.buffer == [] <==> frames.Some? && FramesOk(read, frames.value))
      && (frames.Some? && FramesOk(read, frames.value) ==>
            && r.out == Flatten(SealFrames(read, keys, keys.iv, frames.value))
            && (data != [] ==> r.state.setup == Some(HeaderOf(read, frames.value[0]).setup)))
  {
    var s := Init.(buffer := data);
    var frames := SplitFrames(read, data);
    if frames.None? {
      ProcessLeftover(read, keys, s);
    } else {
      SplitFramesSound(read, data);
      if FramesOk(read, frames.value) {
        ProcessFrames(read, keys, s, frames.value);
      } else {
        assert frames.value != [] && !HeaderOf(read, frames.value[0]).independent;
        ReaderInFrame(read, data);
      }
    }
  }

  // ---- what the definition achieves ----

  lemma SealedHeader(read: Reader, keys: Keys, chain: Block, frame: seq<byte>)
    requires FrameOk(read, frame)
    ensures var h := HeaderOf(read, frame);
      FrameOk(read, SealFrame(keys, chain, h, frame)) && HeaderOf(read, SealFrame(keys, chain, h, frame)) == h
  {
    ReaderClear(read, frame, SealFrame(keys, chain, HeaderOf(read, frame), frame));
  }

  /** Sealed frames are frames of the same sizes with the same headers. */
  lemma {:induction false} SealedFrames(read: Reader, keys: Keys, chain: Block, frames: seq<seq<byte>>)
    requires forall i :: 0 <= i < |frames| ==> FrameOk(read, frames[i])
    ensures var sealed := SealFrames(read, keys, chain, frames);
      forall i :: 0 <= i < |frames| ==>
        FrameOk(read, sealed[i]) && |sealed[i]| == |frames[i]| && HeaderOf(read, sealed[i]) == HeaderOf(read, frames[i])
    decreases |frames|
  {
    if frames != [] {
      var h := HeaderOf(read, frames[0]);
      SealedHeader(read, keys, StartChain(keys, h, chain), frames[0]);
      SealedFrames(read, keys, EndChain(keys, h, chain, frames[0]), frames[1..]);
    }
  }

  /** The protected bytes of all frames, joined. */
  function ProtectedBytes(read: Reader, frames: seq<seq<byte>>): (r: seq<byte>)
    requires forall i :: 0 <= i < |frames| ==> FrameOk(read, frames[i])
    ensures |r| % 16 == 0
    decreases |frames|
  {
    if frames == [] then []
    else
      var first, more := Protected(HeaderOf(read, frames[0]), frames[0]), ProtectedBytes(read, frames[1..]);
      var all := first + more;
      BlocksAdd(|first|, |more|);
      assert |all| == |first| + |more|;
      all
  }

  lemma BlocksAdd(a: nat, b: nat)
    requires a % 16 == 0 && b % 16 == 0
    ensures (a + b) % 16 == 0
  {
  }

  lemma SealProtects(keys: Keys, chain: Block, h: Header, frame: seq<byte>)
    requires |frame| == h.size
    ensures Protected(h, SealFrame(keys, chain, h, frame)) == Cbc(keys, chain, Protected(h, frame))
  {
  }

  /** The CBC chain carries over exactly across dependent frames: the protected bytes of
    * a run of dependent frames are encrypted as if they were one message. */
  lemma {:induction false} ChainCarriesOver(read: Reader, keys: Keys, chain: Block, frames: seq<seq<byte>>)
    requires forall i :: 0 <= i < |frames| ==> FrameOk(read, frames[i]) && !HeaderOf(read, frames[i]).independent
    ensures forall i :: 0 <= i < |frames| ==> FrameOk(read, SealFrames(read, keys, chain, frames)[i])
    ensures ProtectedBytes(read, SealFrames(read, keys, chain, frames)) ==
      Cbc(keys, chain, ProtectedBytes(read, frames))
    decreases |frames|
  {
    SealedFrames(read, keys, chain, frames);
    if frames != [] {
      var h := HeaderOf(read, frames[0]);
      var next := EndChain(keys, h, chain, frames[0]);
      var sealed := SealFrames(read, keys, chain, frames);
      assert sealed[1..] == SealFrames(read, keys, next, frames[1..]);
      ChainCarriesOver(read, keys, next, frames[1..]);
      SealedHeader(read, keys, chain, frames[0]);
      SealProtects(keys, chain, h, frames[0]);
      CbcConcat(keys, chain, Protected(h, frames[0]), ProtectedBytes(read, frames[1..]));
    }
  }

  /** An independent frame starts the chain at the IV, whatever came before. */
  lemma IndependentGroup(read: Reader, keys: Keys, chain: Block, frames: seq<seq<byte>>)
    requires frames != [] && (forall i :: 0 <= i < |frames| ==> FrameOk(read, frames[i]))
    requires HeaderOf(read, frames[0]).independent
    requires forall i :: 1 <= i < |frames| ==> !HeaderOf(read, frames[i]).independent
    ensures forall i :: 0 <= i < |frames| ==> FrameOk(read, SealFrames(read, keys, chain, frames)[i])
    ensures ProtectedBytes(read, SealFrames(read, keys, chain, frames)) ==
      Cbc(keys, keys.iv, ProtectedBytes(read, frames))
  {
    SealedFrames(read, keys, chain, frames);
    var h := HeaderOf(read, frames[0]);
    var next := EndChain(keys, h, chain, frames[0]);
    var sealed := SealFrames(read, keys, chain, frames);
    assert sealed[1..] == SealFrames(read, keys, next, frames[1..]);
    ChainCarriesOver(read, keys, next, frames[1..]);
    SealedHeader(read, keys, keys.iv, frames[0]);
    SealProtects(keys, keys.iv, h, frames[0]);
    CbcConcat(keys, keys.iv, Protected(h, frames[0]), ProtectedBytes(read, frames[1..]));
  }

  // ---- exactly which bytes are encrypted ----

  /** Where the protected bytes of a frame end, if it has any. */
  function BlocksEnd(frame: seq<byte>, lead: nat): (r: int) {
    |frame| - (|frame| - lead) % 16
  }

  /** `sealed` is `frame` with its whole 16-byte blocks behind the first `lead` bytes encrypted as
    * one CBC chain, and every other byte left alone. */
  ghost predicate SealedFrame(keys: Keys, chain: Block, lead: nat, frame: seq<byte>, sealed: seq<byte>) {
    && |sealed| == |frame|
    && (|frame| < lead + 16 ==> sealed == frame)
    && (forall i :: 0 <= i < |frame| && (i < lead || i >= BlocksEnd(frame, lead)) ==> sealed[i] == frame[i])
    && forall k: nat {:trigger 16 * k} :: lead + 16 * k + 16 <= |frame| ==>
         var lo := lead + 16 * k;
         sealed[lo..lo + 16] ==
           keys.enc(XorBlock(if k == 0 then chain else sealed[lo - 16..lo], frame[lo..lo + 16]))
  }

  /** The last ciphertext block of a frame, or the chain from before it. */
  function LastBlock(sealed: seq<byte>, lead: nat, chain: Block): Block {
    if |sealed| < lead + 16 then chain else sealed[BlocksEnd(sealed, lead) - 16..BlocksEnd(sealed, lead)]
  }

  /** What frame i is chained to: the IV if it is independent, otherwise the frame before. */
  function ChainOf(read: Reader, keys: Keys, first: Block, sealed: seq<seq<byte>>, i: nat): Block
    requires i < |sealed| && forall j :: 0 <= j < |sealed| ==> FrameOk(read, sealed[j])
    decreases i
  {
    if HeaderOf(read, sealed[i]).independent then keys.iv
    else if i == 0 then first
    else LastBlock(sealed[i - 1], HeaderOf(read, sealed[i - 1]).lead, ChainOf(read, keys, first, sealed, i - 1))
  }

  /** As many frames with the same headers, each sealed with the chain that it has to have. */
  ghost predicate SentFrames(read: Reader, keys: Keys, first: Block, frames: seq<seq<byte>>, sealed: seq<seq<byte>>) {
    && |sealed| == |frames|
    && (forall i :: 0 <= i < |frames| ==> FrameOk(read, frames[i]) && FrameOk(read, sealed[i]))
    && forall i :: 0 <= i < |frames| ==>
         && HeaderOf(read, sealed[i]) == HeaderOf(read, frames[i])
         && SealedFrame(keys, ChainOf(read, keys, first, sealed, i), HeaderOf(read, frames[i]).lead, frames[i],
                        sealed[i])
  }

  /** CBC over a part of a frame, block by block. */
  lemma SealedBlocks(keys: Keys, chain: Block, lead: nat, plain: seq<byte>, frame: seq<byte>, sealed: seq<byte>)
    requires |plain| % 16 == 0 && lead + |plain| <= |frame| == |sealed|
    requires frame[lead..lead + |plain|] == plain && sealed[lead..lead + |plain|] == Cbc(keys, chain, plain)
    ensures forall k: nat {:trigger 16 * k} :: 16 * k + 16 <= |plain| ==>
      var lo := lead + 16 * k;
      sealed[lo..lo + 16] == keys.enc(XorBlock(if k == 0 then chain else sealed[lo - 16..lo], frame[lo..lo + 16]))
    ensures plain != [] ==> CbcChain(keys, chain, plain) == sealed[lead + |plain| - 16..lead + |plain|]
  {
    hide XorBlock, Cbc, CbcChain;
    var c := Cbc(keys, chain, plain);
    forall k: nat {:trigger 16 * k} | 16 * k + 16 <= |plain|
      ensures var lo := lead + 16 * k;
        sealed[lo..lo + 16] == keys.enc(XorBlock(if k == 0 then chain else sealed[lo - 16..lo], frame[lo..lo + 16]))
    {
      CbcBlocks(keys, chain, plain, k);
      BlockWithin(sealed, lead, c, 16 * k);
      BlockWithin(frame, lead, plain, 16 * k);
      if k > 0 {
        BlockWithin(sealed, lead, c, 16 * k - 16);
      }
    }
    if plain != [] {
      ChainIsLastBlock(keys, chain, plain);
      BlockWithin(sealed, lead, c, |plain| - 16);
    }
  }

  lemma WholeBlocks(n: nat, k: nat)
    ensures n % 16 <= n && (n - n % 16) % 16 == 0 && (16 * k + 16 <= n <==> 16 * k + 16 <= n - n % 16)
  {
  }

  lemma SealedExactly(keys: Keys, chain: Block, h: Header, frame: seq<byte>)
    requires |frame| == h.size
    ensures SealedFrame(keys, chain, h.lead, frame, SealFrame(keys, chain, h, frame))
    ensures CbcChain(keys, chain, Protected(h, frame)) == LastBlock(SealFrame(keys, chain, h, frame), h.lead, chain)
  {
    hide XorBlock, Cbc;
    var sealed, plain := SealFrame(keys, chain, h, frame), Protected(h, frame);
    if |frame| >= h.lead + 16 {
      SealedBlocks(keys, chain, h.lead, plain, frame, sealed);
      forall k: nat {:trigger 16 * k} | h.lead + 16 * k + 16 <= |frame| ensures 16 * k + 16 <= |plain| {
        WholeBlocks(|frame| - h.lead, k);
      }
    }
  }

  lemma BlockWithin(data: seq<byte>, lead: nat, part: seq<byte>, at: nat)
    requires lead + |part| <= |data| && data[lead..lead + |part|] == part && at + 16 <= |part|
    ensures data[lead + at..lead + at + 16] == part[at..at + 16]
  {
    var left, right := data[lead + at..lead + at + 16], part[at..at + 16];
    forall i | 0 <= i < 16 ensures left[i] == right[i] {
      assert part[at + i] == data[lead..lead + |part|][at + i];
    }
    assert left == right;
  }

  /** Every frame of the definition is sealed so. */
  lemma {:induction false} SealedAll(read: Reader, keys: Keys, first: Block, frames: seq<seq<byte>>)
    requires forall i :: 0 <= i < |frames| ==> FrameOk(read, frames[i])
    ensures SentFrames(read, keys, first, frames, SealFrames(read, keys, first, frames))
    decreases |frames|
  {
    var sealed := SealFrames(read, keys, first, frames);
    SealedFrames(read, keys, first, frames);
    if frames != [] {
      var h := HeaderOf(read, frames[0]);
      var chain, next := StartChain(keys, h, first), EndChain(keys, h, first, frames[0]);
      AllButFirst(read, frames);
      SealedAll(read, keys, next, frames[1..]);
      SealedExactly(keys, chain, h, frames[0]);
      assert sealed[0] == SealFrame(keys, chain, h, frames[0]);
      assert sealed[1..] == SealFrames(read, keys, next, frames[1..]);
      SealedBehind(read, keys, first, next, frames, sealed);
    }
  }

  /** The frames after the first, seen from the first. */
  lemma SealedBehind(read: Reader, keys: Keys, first: Block, next: Block, frames: seq<seq<byte>>,
                     sealed: seq<seq<byte>>)
    requires |sealed| == |frames| > 0 && forall j :: 0 <= j < |frames| ==> FrameOk(read, frames[j])
    requires forall j :: 0 <= j < |sealed| ==> FrameOk(read, sealed[j])
    requires HeaderOf(read, sealed[0]) == HeaderOf(read, frames[0])
    requires var h := HeaderOf(read, frames[0]);
      && SealedFrame(keys, StartChain(keys, h, first), h.lead, frames[0], sealed[0])
      && next == LastBlock(sealed[0], h.lead, StartChain(keys, h, first))
    requires SentFrames(read, keys, next, frames[1..], sealed[1..])
    ensures SentFrames(read, keys, first, frames, sealed)
  {
    hide SealedFrame, LastBlock;
    forall i | 0 <= i < |frames|
      ensures HeaderOf(read, sealed[i]) == HeaderOf(read, frames[i])
      ensures SealedFrame(keys, ChainOf(read, keys, first, sealed, i), HeaderOf(read, frames[i]).lead, frames[i],
                          sealed[i])
    {
      if i > 0 {
        ChainBehind(read, keys, first, next, sealed, i);
        assert frames[i] == frames[1..][i - 1] && sealed[i] == sealed[1..][i - 1];
      }
    }
  }

  /** The chain of a frame, seen from the second frame on. */
  lemma {:induction false} ChainBehind(read: Reader, keys: Keys, first: Block, next: Block, sealed: seq<seq<byte>>,
                                       i: nat)
    requires 0 < i < |sealed| && forall j :: 0 <= j < |sealed| ==> FrameOk(read, sealed[j])
    requires next == LastBlock(sealed[0], HeaderOf(read, sealed[0]).lead, ChainOf(read, keys, first, sealed, 0))
    ensures ChainOf(read, keys, first, sealed, i) == ChainOf(read, keys, next, sealed[1..], i - 1)
    decreases i
  {
    AllButFirst(read, sealed);
    if i > 1 {
      ChainBehind(read, keys, first, next, sealed, i - 1);
    }
  }

  // ---- the original frames can be recovered ----

  function OpenFrames(read: Reader, keys: Keys, chain: Block, sealed: seq<seq<byte>>): seq<seq<byte>>
    requires forall i :: 0 <= i < |sealed| ==> FrameOk(read, sealed[i])
    decreases |sealed|
  {
    if sealed == [] then []
    else
      var h := HeaderOf(read, sealed[0]);
      var c := StartChain(keys, h, chain);
      [OpenFrame(keys, c, h, sealed[0])]
      + OpenFrames(read, keys, ReceivedChain(c, Protected(h, sealed[0])), sealed[1..])
  }

  /** The receiver reads the next chaining value off the ciphertext. */
  function ReceivedChain(chain: Block, secret: seq<byte>): Block
    requires |secret| % 16 == 0
  {
    if secret == [] then chain else secret[|secret| - 16..]
  }

  /** The chain after a message is its last ciphertext block. */
  lemma {:induction false} ChainIsLastBlock(keys: Keys, chain: Block, data: seq<byte>)
    requires |data| % 16 == 0 && data != []
    ensures CbcChain(keys, chain, data) == Cbc(keys, chain, data)[|data| - 16..]
    decreases |data|
  {
    var c := Seal(keys, chain, data[..16]);
    if |data| > 16 {
      ChainIsLastBlock(keys, c, data[16..]);
    } else {
      CbcOne(keys, chain, data);
    }
  }

  lemma PatchBack(data: seq<byte>, lead: nat, mid: seq<byte>)
    requires lead + |mid| <= |data|
    ensures Patch(Patch(data, lead, mid), lead, data[lead..lead + |mid|]) == data
  {
  }

  lemma OpenSealed(keys: Keys, chain: Block, h: Header, frame: seq<byte>)
    requires |frame| == h.size && Invertible(keys)
    ensures OpenFrame(keys, chain, h, SealFrame(keys, chain, h, frame)) == frame
  {
    if ProtectedSize(h) > 0 {
      SealProtects(keys, chain, h, frame);
      CbcRoundTrip(keys, chain, Protected(h, frame));
      PatchBack(frame, h.lead, Cbc(keys, chain, Protected(h, frame)));
    }
  }

  lemma {:induction false} FramesRecovered(read: Reader, keys: Keys, chain: Block, frames: seq<seq<byte>>)
    requires Invertible(keys) && forall i :: 0 <= i < |frames| ==> FrameOk(read, frames[i])
    ensures forall i :: 0 <= i < |frames| ==> FrameOk(read, SealFrames(read, keys, chain, frames)[i])
    ensures OpenFrames(read, keys, chain, SealFrames(read, keys, chain, frames)) == frames
    decreases |frames|
  {
    SealedFrames(read, keys, chain, frames);
    if frames != [] {
      var h := HeaderOf(read, frames[0]);
      FramesRecovered(read, keys, EndChain(keys, h, chain, frames[0]), frames[1..]);
      RecoverFirst(read, keys, chain, frames);
    }
  }

  lemma RecoverFirst(read: Reader, keys: Keys, chain: Block, frames: seq<seq<byte>>)
    requires Invertible(keys) && frames != [] && forall i :: 0 <= i < |frames| ==> FrameOk(read, frames[i])
    requires forall i :: 0 <= i < |frames| ==> FrameOk(read, SealFrames(read, keys, chain, frames)[i])
    requires var next := EndChain(keys, HeaderOf(read, frames[0]), chain, frames[0]);
      var more := SealFrames(read, keys, next, frames[1..]);
      (forall i :: 0 <= i < |more| ==> FrameOk(read, more[i])) && OpenFrames(read, keys, next, more) == frames[1..]
    ensures OpenFrames(read, keys, chain, SealFrames(read, keys, chain, frames)) == frames
  {
    var h := HeaderOf(read, frames[0]);
    var c, next := StartChain(keys, h, chain), EndChain(keys, h, chain, frames[0]);
    var sealed := SealFrames(read, keys, chain, frames);
    assert sealed[0] == SealFrame(keys, c, h, frames[0]) && sealed[1..] == SealFrames(read, keys, next, frames[1..]);
    SealedHeader(read, keys, c, frames[0]);
    OpenSealed(keys, c, h, frames[0]);
    NextChain(keys, c, h, frames[0]);
    assert ReceivedChain(c, Protected(h, sealed[0])) == next;
    assert OpenFrames(read, keys, chain, sealed) ==
      [OpenFrame(keys, c, h, sealed[0])] + OpenFrames(read, keys, next, sealed[1..]);
    HeadAndTail(frames);
  }

  lemma HeadAndTail(frames: seq<seq<byte>>)
    requires frames != []
    ensures frames == [frames[0]] + frames[1..]
  {
  }

  lemma NextChain(keys: Keys, chain: Block, h: Header, frame: seq<byte>)
    requires |frame| == h.size
    ensures ReceivedChain(chain, Protected(h, SealFrame(keys, chain, h, frame))) ==
      CbcChain(keys, chain, Protected(h, frame))
  {
    SealProtects(keys, chain, h, frame);
    var plain := Protected(h, frame);
    if plain != [] {
      ChainIsLastBlock(keys, chain, plain);
    }
  }
}
