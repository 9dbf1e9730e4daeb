/** Runs of a codec transformer: lists of PES packets, each cut into payload calls. */
module PesRuns {
  import opened Bytes
  import Q = PesQueues

  /** One input PES as the calls PESHeader, PESPayload for each chunk, PESEnd. */
  datatype InputPES = InputPES(header: seq<byte>, chunks: seq<seq<byte>>)

  function Elementary(units: seq<InputPES>): seq<byte> {
    if units == [] then [] else Elementary(units[..|units| - 1]) + Flatten(units[|units| - 1].chunks)
  }

  predicate HeadersLongEnough(units: seq<InputPES>) {
    forall i :: 0 <= i < |units| ==> |units[i].header| >= 6
  }

  lemma {:induction false} ElementaryPrefix(units: seq<InputPES>, k: nat)
    requires k <= |units|
    ensures exists rest :: Elementary(units) == Elementary(units[..k]) + rest
    decreases |units|
  {
    if k == |units| {
      assert units[..k] == units;
      assert Elementary(units) == Elementary(units[..k]) + [];
    } else {
      var n := |units| - 1;
      ElementaryPrefix(units[..n], k);
      assert units[..n][..k] == units[..k];
      var rest :| Elementary(units[..n]) == Elementary(units[..k]) + rest;
      ConcatAssociates(Elementary(units[..k]), rest, Flatten(units[n].chunks));
      assert Elementary(units) == Elementary(units[..k]) + (rest + Flatten(units[n].chunks));
    }
  }

  lemma {:induction false} FlattenLast(chunks: seq<seq<byte>>, k: nat)
    requires k < |chunks|
    ensures Flatten(chunks[..k + 1]) == Flatten(chunks[..k]) + chunks[k]
  {
    assert chunks[..k + 1] == chunks[..k] + [chunks[k]];
    FlattenConcat(chunks[..k], [chunks[k]]);
    assert Flatten([chunks[k]]) == chunks[k] + Flatten([]);
  }

  lemma FlattenCut(before: seq<byte>, chunks: seq<seq<byte>>, k: nat)
    requires k <= |chunks|
    ensures (before + Flatten(chunks[..k])) + Flatten(chunks[k..]) == before + Flatten(chunks)
  {
    assert chunks == chunks[..k] + chunks[k..];
    FlattenConcat(chunks[..k], chunks[k..]);
    ConcatAssociates(before, Flatten(chunks[..k]), Flatten(chunks[k..]));
  }

  /** The payloads of a list of PES packets, joined. */
  function Payloads(pes: seq<Q.PES>): seq<byte> {
    if pes == [] then [] else Payloads(pes[..|pes| - 1]) + pes[|pes| - 1].payload
  }

  /** Sharing the images out loses none of them and changes no order. */
  lemma {:induction false} SharedPayloads(inputs: seq<Q.Input>, images: Images)
    requires |images| == Q.TotalSize(inputs)
    ensures Payloads(Q.Share(inputs, images)) == Flatten(images)
    decreases |inputs|
  {
    if inputs != [] {
      var k := |inputs| - 1;
      var cut := Q.TotalSize(inputs[..k]);
      var shared := Q.Share(inputs, images);
      SharedPayloads(inputs[..k], images[..cut]);
      assert shared[..k] == Q.Share(inputs[..k], images[..cut]);
      assert images == images[..cut] + images[cut..];
      FlattenConcat(images[..cut], images[cut..]);
    }
  }

  lemma {:induction false} ShareKeepsHeader(inputs: seq<Q.Input>, images: Images, i: nat)
    requires |images| == Q.TotalSize(inputs) && i < |inputs|
    ensures Q.Share(inputs, images)[i].header == inputs[i].header && Q.Share(inputs, images)[i].ended
    decreases |inputs|
  {
    var k := |inputs| - 1;
    if i < k {
      ShareKeepsHeader(inputs[..k], images[..Q.TotalSize(inputs[..k])], i);
    }
  }
}
