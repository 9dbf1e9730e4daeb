/** Whole runs of the audio transformers: any list of PES packets, each cut into any
  * payload calls.
  */
module AudioRun {
  import opened Bytes
  import opened Cipher
  import opened Wrappers
  import opened AudioFrames
  import opened AudioStream
  import opened AudioTransformer
  import opened PesRuns
  import Q = PesQueues

  function InputsOf(units: seq<InputPES>): (r: seq<Q.Input>)
    ensures |r| == |units|
  {
    seq(|units|, i requires 0 <= i < |units| =>
      Q.Input(units[i].header, |Flatten(units[i].chunks)|, true))
  }

  lemma {:induction false} PrefixRefused(read: Reader, keys: Keys, stream: seq<byte>, more: seq<byte>)
    requires ProcessAll(read, keys, Init.(buffer := stream)).Refused?
    ensures !WholeFrames(read, stream + more)
  {
    CallsCompose(read, keys, Init.(buffer := stream), more);
    ProcessIsSplit(read, keys, stream + more);
  }

  /** One payload call, seen from the PES it belongs to. */
  method RunChunk(t: Transformer, chunk: seq<byte>, ghost received: seq<Q.Input>, ghost input: Q.Input)
      returns (ok: bool)
    requires t.Valid() && t.inputPESOpen && t.queue.received == received + [input]
    modifies t, t.block, t.queue
    ensures !ok ==> Verdict(t.read, t.block.keys, old(t.stream) + chunk) != None
    ensures ok ==> t.Valid() && t.inputPESOpen && t.stream == old(t.stream) + chunk
    ensures ok ==> t.queue.received == received + [input.(size := input.size + |chunk|)]
  {
    Q.ReplaceLastOf(received, input, input.(size := input.size + |chunk|));
    var err := t.PESPayload(chunk);
    ok := err == None;
  }

  /** One PES goes in. On failure the bytes up to some chunk are already refused. */
  method RunPES(t: Transformer, u: InputPES) returns (ok: bool, ghost sofar: seq<byte>, ghost rest: seq<byte>)
    requires t.Valid() && !t.inputPESOpen
    modifies t, t.block, t.queue
    ensures ok ==> t.Valid() && !t.inputPESOpen && |u.header| >= 6
    ensures ok ==> t.stream == old(t.stream) + Flatten(u.chunks)
    ensures ok ==> t.queue.received == old(t.queue.received) + [Q.Input(u.header, |Flatten(u.chunks)|, true)]
    ensures !ok && |u.header| >= 6 ==>
      Verdict(t.read, t.block.keys, sofar) != None && sofar + rest == old(t.stream) + Flatten(u.chunks)
  {
    ok, sofar, rest := true, [], [];
    ghost var before, received := t.stream, t.queue.received;
    var err := t.PESHeader(u.header);
    if err != None {
      return false, [], [];
    }
    var k := 0;
    assert before + Flatten(u.chunks[..0]) == before;
    while k < |u.chunks|
      invariant 0 <= k <= |u.chunks| && ok
      invariant t.Valid() && t.inputPESOpen
      invariant t.stream == before + Flatten(u.chunks[..k])
      invariant t.queue.received == received + [Q.Input(u.header, |Flatten(u.chunks[..k])|, false)]
      decreases |u.chunks| - k
    {
      FlattenLast(u.chunks, k);
      ConcatAssociates(before, Flatten(u.chunks[..k]), u.chunks[k]);
      ok := RunChunk(t, u.chunks[k], received, Q.Input(u.header, |Flatten(u.chunks[..k])|, false));
      if !ok {
        sofar, rest := before + Flatten(u.chunks[..k + 1]), Flatten(u.chunks[k + 1..]);
        FlattenCut(before, u.chunks, k + 1);
        return;
      }
      k := k + 1;
    }
    assert u.chunks[..k] == u.chunks;
    Q.ReplaceLastOf(received, Q.Input(u.header, |Flatten(u.chunks)|, false), Q.Input(u.header, |Flatten(u.chunks)|,
      true));
    err := t.PESEnd();
  }

  /** What downstream gets for these PES packets: as many, complete, with the same headers and
    * lengths, and in them frames that are sent as they have to be. */
  ghost predicate Sent(read: Reader, keys: Keys, units: seq<InputPES>, out: seq<Q.PES>) {
    && |out| == |units|
    && (forall i :: 0 <= i < |units| ==>
          && out[i].header == units[i].header && out[i].ended
          && |out[i].payload| == |Flatten(units[i].chunks)|)
    && SplitFrames(read, Elementary(units)).Some? && SplitFrames(read, Payloads(out)).Some?
    && SentFrames(read, keys, keys.iv, SplitFrames(read, Elementary(units)).value,
                  SplitFrames(read, Payloads(out)).value)
  }

  /** The end of the input, after all PES packets. */
  method Conclude(t: Transformer, codec: Codec, ghost units: seq<InputPES>) returns (ok: bool)
    requires t.Valid() && !t.inputPESOpen && t.read == ReaderOf(codec)
    requires t.stream == Elementary(units) && t.queue.received == InputsOf(units)
    modifies t, t.block, t.queue
    ensures ok <==> WholeFrames(ReaderOf(codec), Elementary(units))
    ensures ok ==>
      var frames := SplitFrames(ReaderOf(codec), Elementary(units)).value;
      var out := Flatten(SealFrames(ReaderOf(codec), t.block.keys, t.block.keys.iv, frames));
      && |out| == Q.TotalSize(InputsOf(units))
      && Q.Group(t.queue.events) == Some(Q.Share(InputsOf(units), Singles(out)))
      && (frames != [] ==> t.signalled == Some(HeaderOf(ReaderOf(codec), frames[0]).setup))
    ensures ok ==> Sent(ReaderOf(codec), t.block.keys, units, Q.Group(t.queue.events).value)
  {
    hide Sent, SealFrames;
    var err := t.Flush();
    if err == None {
      OutputFrames(codec, t.block.keys, units, Q.Group(t.queue.events).value);
    }
    return err == None;
  }

  /** Refinement over whole runs. For every way of cutting an elementary stream into
    * PES packets and payload calls, the run succeeds exactly when the joined stream
    * consists of whole frames; then the downstream handler has received the same PES
    * packets, cut at the same places, of the stream sealed frame by frame. */
  method RunAll(codec: Codec, keys: Keys, units: seq<InputPES>)
      returns (ok: bool, events: seq<Q.Event>, setup: Option<seq<byte>>)
    ensures ok <==> HeadersLongEnough(units) && WholeFrames(ReaderOf(codec), Elementary(units))
    ensures ok ==>
      var frames := SplitFrames(ReaderOf(codec), Elementary(units)).value;
      var out := Flatten(SealFrames(ReaderOf(codec), keys, keys.iv, frames));
      && |out| == Q.TotalSize(InputsOf(units))
      && Q.Group(events) == Some(Q.Share(InputsOf(units), Singles(out)))
      && (frames != [] ==> setup == Some(HeaderOf(ReaderOf(codec), frames[0]).setup))
    ensures ok ==> Sent(ReaderOf(codec), keys, units, Q.Group(events).value)
  {
    hide Sent, SealFrames, SplitFrames, FramesOk;
    var t := new Transformer(codec, keys);
    var k := 0;
    setup := None;
    assert units[..0] == [];
    while k < |units|
      invariant 0 <= k <= |units|
      invariant fresh(t) && fresh(t.queue) && fresh(t.queue.observer) && fresh(t.block)
      invariant t.Valid() && !t.inputPESOpen
      invariant HeadersLongEnough(units[..k])
      invariant t.stream == Elementary(units[..k])
      invariant t.queue.received == InputsOf(units[..k])
      decreases |units| - k
    {
      ghost var sofar, rest;
      ok, sofar, rest := RunPES(t, units[k]);
      assert units[..k + 1][..k] == units[..k];
      if !ok {
        if |units[k].header| >= 6 {
          RunRefused(t.read, keys, units, k, sofar, rest);
        }
        return false, [], None;
      }
      assert InputsOf(units[..k + 1]) == InputsOf(units[..k]) + [InputsOf(units[..k + 1])[k]];
      k := k + 1;
    }
    assert units[..k] == units;
    ok := Conclude(t, codec, units);
    return ok, t.queue.events, t.signalled;
  }

  lemma {:induction false} RunRefused(read: Reader, keys: Keys, units: seq<InputPES>, k: nat, sofar: seq<byte>,
    rest: seq<byte>)
    requires k < |units| && Verdict(read, keys, sofar) != None
    requires sofar + rest == Elementary(units[..k]) + Flatten(units[k].chunks)
    ensures !WholeFrames(read, Elementary(units))
  {
    assert units[..k + 1][..k] == units[..k];
    assert Elementary(units[..k + 1]) == sofar + rest;
    ElementaryPrefix(units, k + 1);
    var more :| Elementary(units) == Elementary(units[..k + 1]) + more;
    ConcatAssociates(sofar, rest, more);
    PrefixRefused(read, keys, sofar, rest + more);
  }

  /** Each output PES is exactly as long as its input PES. */
  lemma {:induction false} LengthsKept(inputs: seq<Q.Input>, out: seq<byte>, k: nat)
    requires |out| == Q.TotalSize(inputs) && k < |inputs|
    ensures |Q.Share(inputs, Singles(out))[k].payload| == inputs[k].size
    decreases |inputs|
  {
    var n := |inputs| - 1;
    var cut := Q.TotalSize(inputs[..n]);
    var singles := Singles(out);
    assert singles[..cut] == Singles(out[..cut]) && singles[cut..] == Singles(out[cut..]);
    FlattenSingles(out[cut..]);
    if k < n {
      LengthsKept(inputs[..n], out[..cut], k);
    }
  }

  /** The output of a successful run: as many PES packets with the same headers and lengths. Their
    * joined payload consists of as many frames, with the same headers, each sealed as it has to
    * be, and opening them gives the joined input back. */
  lemma OutputFrames(codec: Codec, keys: Keys, units: seq<InputPES>, out: seq<Q.PES>)
    requires WholeFrames(ReaderOf(codec), Elementary(units))
    requires var sealed := Flatten(SealFrames(ReaderOf(codec), keys, keys.iv, SplitFrames(ReaderOf(codec),
      Elementary(units)).value));
      |sealed| == Q.TotalSize(InputsOf(units)) && out == Q.Share(InputsOf(units), Singles(sealed))
    ensures Sent(ReaderOf(codec), keys, units, out)
    ensures var received := SplitFrames(ReaderOf(codec), Payloads(out));
      && received.Some? && (forall i :: 0 <= i < |received.value| ==> FrameOk(ReaderOf(codec), received.value[i]))
      && (Invertible(keys) ==>
            Flatten(OpenFrames(ReaderOf(codec), keys, keys.iv, received.value)) == Elementary(units))
  {
    hide SentFrames, OpenFrames, SealFrames;
    Recover(ReaderOf(codec), keys, Elementary(units));
    var sealed := Flatten(SealFrames(ReaderOf(codec), keys, keys.iv, SplitFrames(ReaderOf(codec),
      Elementary(units)).value));
    SharedPayloads(InputsOf(units), Singles(sealed));
    FlattenSingles(sealed);
    forall i | 0 <= i < |units|
      ensures out[i].header == units[i].header && out[i].ended && |out[i].payload| == |Flatten(units[i].chunks)|
    {
      ShareKeepsHeader(InputsOf(units), Singles(sealed), i);
      LengthsKept(InputsOf(units), sealed, i);
    }
  }

  lemma Recover(read: Reader, keys: Keys, data: seq<byte>)
    requires WholeFrames(read, data)
    ensures var frames := SplitFrames(read, data).value;
      var sealed := SealFrames(read, keys, keys.iv, frames);
      && SplitFrames(read, Flatten(sealed)) == Some(sealed)
      && SentFrames(read, keys, keys.iv, frames, sealed)
      && (forall i :: 0 <= i < |sealed| ==> FrameOk(read, sealed[i]))
      && (Invertible(keys) ==> Flatten(OpenFrames(read, keys, keys.iv, sealed)) == data)
  {
    hide SentFrames;
    var frames := SplitFrames(read, data).value;
    SplitFramesSound(read, data);
    SealedFrames(read, keys, keys.iv, frames);
    SealedAll(read, keys, keys.iv, frames);
    SplitFramesComplete(read, SealFrames(read, keys, keys.iv, frames));
    if Invertible(keys) {
      FramesRecovered(read, keys, keys.iv, frames);
    }
  }
}
