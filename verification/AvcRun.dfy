/** Whole runs of the AVC transformer: any list of PES packets, each cut into any
  * payload calls.
  */
module AvcRun {
  import opened Bytes
  import opened Cipher
  import opened Wrappers
  import opened AnnexB
  import opened AvcCore
  import opened AvcFeeds
  import opened AvcRefinement
  import opened AvcTransformer
  import T = AvcTheorems
  import opened PesRuns
  import Q = PesQueues

  function InputsOf(units: seq<InputPES>): (r: seq<Q.Input>)
    requires HeadersLongEnough(units)
    ensures |r| == |units|
  {
    seq(|units|, i requires 0 <= i < |units| =>
      Q.Input(ClearLength(units[i].header), |Flatten(units[i].chunks)|, true))
  }

  lemma {:induction false} PrefixRefused(cfg: Config, stream: seq<byte>, more: seq<byte>)
    requires FeedAll(cfg, Init, stream).Failed?
    ensures Split(stream + more).None?
  {
    FeedConcat(cfg, Init, stream, more);
    RunIsSplit(cfg, stream + more);
  }

  /** One payload call, seen from the PES it belongs to. */
  method RunChunk(t: Transformer, chunk: seq<byte>, ghost received: seq<Q.Input>, ghost input: Q.Input)
      returns (ok: bool)
    requires t.Valid() && t.inputPESOpen && t.queue.received == received + [input]
    modifies t, t.pattern, t.block, t.escaper, t.queue
    ensures !ok ==> FeedAll(t.cfg, Init, old(t.stream) + chunk).Failed?
    ensures ok ==> t.Valid() && t.inputPESOpen && t.stream == old(t.stream) + chunk
    ensures ok ==> t.queue.received == received + [input.(size := input.size + |chunk|)]
  {
    Q.ReplaceLastOf(received, input, input.(size := input.size + |chunk|));
    var err := t.PESPayload(chunk);
    ok := err == None;
  }

  /** One PES goes in. On failure the bytes up to some chunk already break the stream. */
  method RunPES(t: Transformer, u: InputPES) returns (ok: bool, ghost sofar: seq<byte>, ghost rest: seq<byte>)
    requires t.Valid() && !t.inputPESOpen
    modifies t, t.pattern, t.block, t.escaper, t.queue
    ensures ok ==> t.Valid() && !t.inputPESOpen && |u.header| >= 6
    ensures ok ==> t.stream == old(t.stream) + Flatten(u.chunks)
    ensures ok ==>
      t.queue.received == old(t.queue.received) + [Q.Input(ClearLength(u.header), |Flatten(u.chunks)|, true)]
    ensures !ok && |u.header| >= 6 ==>
      FeedAll(t.cfg, Init, sofar).Failed? && sofar + rest == old(t.stream) + Flatten(u.chunks)
  {
    ok, sofar, rest := true, [], [];
    ghost var before, received := t.stream, t.queue.received;
    var err := t.PESHeader(u.header);
    if err != None {
      return false, [], [];
    }
    var header := ClearLength(u.header);
    var k := 0;
    assert before + Flatten(u.chunks[..0]) == before;
    while k < |u.chunks|
      invariant 0 <= k <= |u.chunks| && ok
      invariant t.Valid() && t.inputPESOpen
      invariant t.stream == before + Flatten(u.chunks[..k])
      invariant t.queue.received == received + [Q.Input(header, |Flatten(u.chunks[..k])|, false)]
      decreases |u.chunks| - k
    {
      FlattenLast(u.chunks, k);
      ConcatAssociates(before, Flatten(u.chunks[..k]), u.chunks[k]);
      ok := RunChunk(t, u.chunks[k], received, Q.Input(header, |Flatten(u.chunks[..k])|, false));
      if !ok {
        sofar, rest := before + Flatten(u.chunks[..k + 1]), Flatten(u.chunks[k + 1..]);
        FlattenCut(before, u.chunks, k + 1);
        return;
      }
      k := k + 1;
    }
    assert u.chunks[..k] == u.chunks;
    Q.ReplaceLastOf(received, Q.Input(header, |Flatten(u.chunks)|, false), Q.Input(header, |Flatten(u.chunks)|, true));
    err := t.PESEnd();
  }

  /** What downstream gets for these PES packets: as many, complete, with the same headers but for
    * the length field, and in them a stream that is sent as it has to be. */
  ghost predicate Sent(cfg: Config, units: seq<InputPES>, out: seq<Q.PES>)
    requires HeadersLongEnough(units)
  {
    && |out| == |units|
    && (forall i :: 0 <= i < |units| ==> out[i].header == units[i].header[4 := 0][5 := 0] && out[i].ended)
    && Split(Elementary(units)).Some? && Split(Payloads(out)).Some?
    && T.SentStream(cfg, Split(Elementary(units)).value, Split(Payloads(out)).value)
  }

  /** Refinement over whole runs. For every way of cutting an elementary stream into
    * PES packets and payload calls, the run succeeds exactly when the joined stream is
    * a proper byte stream, and then the downstream handler has received the same PES
    * packets, in order, each holding the images of its own source bytes. */
  method RunAll(keys: Keys, enabled: bool, units: seq<InputPES>) returns (ok: bool, events: seq<Q.Event>)
    ensures ok <==> HeadersLongEnough(units) && Split(Elementary(units)).Some?
    ensures ok ==>
      var images := StreamImages(Config(keys, enabled), Split(Elementary(units)).value);
      |images| == Q.TotalSize(InputsOf(units)) && Q.Group(events) == Some(Q.Share(InputsOf(units), images))
    ensures ok ==> Sent(Config(keys, enabled), units, Q.Group(events).value)
  {
    hide Sent;
    var t := new Transformer(keys, enabled);
    var k := 0;
    ghost var cfg := t.cfg;
    assert units[..0] == [];
    while k < |units|
      invariant 0 <= k <= |units|
      invariant fresh(t) && fresh(t.queue) && fresh(t.queue.observer) && fresh(t.escaper) && fresh(t.pattern)
        && (t.block != null ==> fresh(t.block))
      invariant t.Valid() && !t.inputPESOpen && t.cfg == cfg
      invariant HeadersLongEnough(units[..k])
      invariant t.stream == Elementary(units[..k])
      invariant t.queue.received == InputsOf(units[..k])
      decreases |units| - k
    {
      ghost var sofar, rest;
      ok, sofar, rest := RunPES(t, units[k]);
      assert units[..k + 1][..k] == units[..k];
      if !ok {
        if |units[k].header| >= 6 {
          RunRefused(cfg, units, k, sofar, rest);
        }
        return false, [];
      }
      assert InputsOf(units[..k + 1]) == InputsOf(units[..k]) + [InputsOf(units[..k + 1])[k]];
      k := k + 1;
    }
    assert units[..k] == units;
    var err := t.Flush();
    if err == None {
      OutputStream(cfg, units, Q.Group(t.queue.events).value);
    }
    return err == None, t.queue.events;
  }

  lemma {:induction false} RunRefused(cfg: Config, units: seq<InputPES>, k: nat, sofar: seq<byte>, rest: seq<byte>)
    requires k < |units| && FeedAll(cfg, Init, sofar).Failed?
    requires sofar + rest == Elementary(units[..k]) + Flatten(units[k].chunks)
    ensures Split(Elementary(units)).None?
  {
    assert units[..k + 1][..k] == units[..k];
    assert Elementary(units[..k + 1]) == sofar + rest;
    ElementaryPrefix(units, k + 1);
    var more :| Elementary(units) == Elementary(units[..k + 1]) + more;
    ConcatAssociates(sofar, rest, more);
    PrefixRefused(cfg, sofar, rest + more);
  }

  /** The output of a successful run: as many PES packets, with length fields of 0. Their joined
    * payload splits into as many NAL units, each sent as it has to be, and restoring those gives
    * the joined input back. */
  lemma OutputStream(cfg: Config, units: seq<InputPES>, out: seq<Q.PES>)
    requires HeadersLongEnough(units) && Split(Elementary(units)).Some?
    requires |StreamImages(cfg, Split(Elementary(units)).value)| == Q.TotalSize(InputsOf(units))
    requires out == Q.Share(InputsOf(units), StreamImages(cfg, Split(Elementary(units)).value))
    ensures Sent(cfg, units, out)
    ensures Split(Payloads(out)) == Some(TransformStream(cfg, Split(Elementary(units)).value))
    ensures Invertible(cfg.keys) ==> Render(T.RestoreStream(cfg, Split(Payloads(out)).value)) == Elementary(units)
  {
    hide T.SentStream;
    var s := Split(Elementary(units)).value;
    SharedPayloads(InputsOf(units), StreamImages(cfg, s));
    SplitSound(Elementary(units));
    T.BoundariesSurvive(cfg, s);
    if Invertible(cfg.keys) {
      T.StreamRecovered(cfg, Elementary(units));
    }
    forall i | 0 <= i < |units| ensures out[i].header == units[i].header[4 := 0][5 := 0] && out[i].ended {
      ShareKeepsHeader(InputsOf(units), StreamImages(cfg, s), i);
    }
  }
}
