/** One PID from input packets to output packets to a receiver: the receiver's PES packets
  * are the transformed ones, and decrypting them gives the elementary stream of the input.
  */
module EndToEnd {
  import opened Bytes
  import opened Cipher
  import opened Wrappers
  import AB = AnnexB
  import opened AvcCore
  import T = AvcTheorems
  import opened PesQueues
  import opened PesRuns
  import PC = PesCollector
  import opened PesFraming
  import opened Packets
  import opened Carriage
  import opened AdaptationField
  import opened Packetizer
  import opened PacketizerRun
  import opened AlignerModel
  import opened Aligner
  import M = MediaTransformers
  import A = AvcTransformer
  import U = AudioTransformer
  import opened StreamFactory
  import AF = AudioFrames
  import AS = AudioStream
  import R = AudioRun
  import opened StreamModel
  import opened PesShapes
  import opened MediaStreams

  // ---- a whole run ----

  function Numbers(n: nat): (r: seq<nat>)
    ensures |r| == n
  {
    seq(n, i => i)
  }

  predicate AllOn(pid: nat, packets: seq<Packet>) {
    forall i :: 0 <= i < |packets| ==> packets[i].pid == pid
  }

  /** The remuxer lets every packet through to the stream. */
  predicate Admitted(packets: seq<Packet>) {
    forall i :: 0 <= i < |packets| && Collect(packets[..i]).Ok? ==> Reaches(Collect(packets[..i]).state, packets[i])
  }

  /** One packet more. Fails only if this packet or one before it spoils the input. */
  method Push(s: MediaStream, packets: seq<Packet>, i: nat, ghost fine: bool)
      returns (ok: bool, completed: seq<CompletedSlot>)
    requires i < |packets| && Admitted(packets)
    requires fine ==> packets[i].pid == s.pid && Acceptable(M.CodecOf(s.transformer), packets[..i + 1])
    requires s.Valid() && s.sink.source == packets[..i] && s.sink.registered == Numbers(i)
    modifies M.Objects(s.transformer), M.Queue(s.transformer).observer, s.collector, s.sink, s.sink.packetizer,
      s.sink.packetizer.payload
    ensures fine ==> ok || s.sink.panicked
    ensures s.sink.panicked ==> !AllPusi(packets)
    ensures ok ==> s.Valid() && packets[i].pid == s.pid && s.sink.finished == old(s.sink.finished) + completed
    ensures ok ==> s.sink.source == packets[..i + 1] && s.sink.registered == Numbers(i + 1)
  {
    assert packets[..i + 1] == packets[..i] + [packets[i]];
    assert Numbers(i + 1) == Numbers(i) + [i];
    assert Collect(packets[..i]).Ok?;
    PusiBefore(packets, i + 1);
    ok, completed := s.Consume(i, packets[i]);
  }

  lemma PusiBefore(packets: seq<Packet>, k: nat)
    requires k <= |packets|
    ensures AllPusi(packets) ==> AllPusi(packets[..k])
  {
  }

  /** The packets from number i on. */
  method PushFrom(s: MediaStream, packets: seq<Packet>, i: nat, ghost fine: bool)
      returns (ok: bool, slots: seq<CompletedSlot>)
    requires i <= |packets| && Admitted(packets) && AllOn(s.pid, packets[..i])
    requires s.Valid() && s.sink.source == packets[..i] && s.sink.registered == Numbers(i)
    requires fine ==> AllOn(s.pid, packets) && Fine(M.CodecOf(s.transformer), packets)
    modifies M.Objects(s.transformer), M.Queue(s.transformer).observer, s.collector, s.sink, s.sink.packetizer,
      s.sink.packetizer.payload
    ensures fine ==> ok || s.sink.panicked
    ensures s.sink.panicked ==> !AllPusi(packets)
    ensures ok ==> s.Valid() && AllOn(s.pid, packets) && s.sink.finished == old(s.sink.finished) + slots
    ensures ok ==> s.sink.source == packets && s.sink.registered == Numbers(|packets|)
    decreases |packets| - i
  {
    if i == |packets| {
      assert packets[..i] == packets;
      s.Going();
      return true, [];
    }
    OneMore(M.CodecOf(s.transformer), s.pid, packets, i, fine);
    ok, slots := Push(s, packets, i, fine);
    if ok {
      var more;
      ok, more := PushFrom(s, packets, i + 1, fine);
      ConcatAssociates(old(s.sink.finished), slots, more);
      slots := slots + more;
    }
  }

  method PushEach(s: MediaStream, packets: seq<Packet>, ghost fine: bool) returns (ok: bool, slots: seq<CompletedSlot>)
    requires s.Valid() && s.sink.source == [] && s.sink.registered == [] && s.sink.finished == [] && Admitted(packets)
    requires fine ==> AllOn(s.pid, packets) && Fine(M.CodecOf(s.transformer), packets)
    modifies M.Objects(s.transformer), M.Queue(s.transformer).observer, s.collector, s.sink, s.sink.packetizer,
      s.sink.packetizer.payload
    ensures fine ==> ok || s.sink.panicked
    ensures s.sink.panicked ==> !AllPusi(packets)
    ensures ok ==> s.Valid() && AllOn(s.pid, packets) && s.sink.finished == slots
    ensures ok ==> s.sink.source == packets && s.sink.registered == Numbers(|packets|)
  {
    assert packets[..0] == [] && Numbers(0) == [];
    ok, slots := PushFrom(s, packets, 0, fine);
    assert [] + slots == slots;
  }

  lemma OneMore(c: M.Codec, pid: nat, packets: seq<Packet>, i: nat, fine: bool)
    requires i < |packets| && AllOn(pid, packets[..i]) && (fine ==> AllOn(pid, packets) && Fine(c, packets))
    ensures fine ==> packets[i].pid == pid && Acceptable(c, packets[..i + 1])
    ensures packets[i].pid == pid ==> AllOn(pid, packets[..i + 1])
  {
    if fine {
      FineBefore(c, packets, i + 1);
    }
    assert packets[..i + 1] == packets[..i] + [packets[i]];
  }

  /** All packets, one after the other, and the end of the input, on a stream that is new. */
  method PushAll(s: MediaStream, packets: seq<Packet>) returns (ok: bool, slots: seq<CompletedSlot>)
    requires s.Valid() && s.sink.source == [] && s.sink.registered == [] && s.sink.finished == [] && Admitted(packets)
    modifies M.Objects(s.transformer), M.Queue(s.transformer).observer, s.collector, s.sink, s.sink.packetizer,
      s.sink.packetizer.payload
    ensures ok <==> AllOn(s.pid, packets) && Fine(M.CodecOf(s.transformer), packets) && AllPusi(packets)
    ensures s.sink.panicked ==> !AllPusi(packets)
    ensures AllOn(s.pid, packets) && Fine(M.CodecOf(s.transformer), packets) ==>
      (s.sink.panicked <==> !AllPusi(packets))
    ensures ok ==> SlotTokens(slots) == Numbers(|packets|)
    ensures ok ==> Output(s.sink.packetizer.pid, packets, Transformed(M.CodecOf(s.transformer),
      Received(packets).state.out),
                          SlotPackets(slots))
  {
    ok, slots := PushEach(s, packets, AllOn(s.pid, packets) && Fine(M.CodecOf(s.transformer), packets));
    if ok {
      var completed;
      ok, completed := s.Flush();
      slots := slots + completed;
    }
  }

  /** All packets of one PID, then the end of the input. The run succeeds exactly if the input
    * is fine and no PUSI packet is without payload: no error of a later stage can occur, and
    * with a fine input the program ends in PESHeader exactly if some PUSI packet is without
    * payload. After a success every slot has come back once and in order, and the packets in
    * them are the output for the transformed PES packets. */
  method Run(pid: nat, k: Kind, packets: seq<Packet>) returns (ok: bool, slots: seq<CompletedSlot>, panicked: bool)
    requires Admitted(packets)
    ensures ok <==> AllOn(pid, packets) && Fine(CodecFor(k), packets) && AllPusi(packets)
    ensures panicked ==> !AllPusi(packets)
    ensures AllOn(pid, packets) && Fine(CodecFor(k), packets) ==> (panicked <==> !AllPusi(packets))
    ensures ok ==> SlotTokens(slots) == Numbers(|packets|)
    ensures ok ==> Output(pid, packets, Transformed(CodecFor(k), Received(packets).state.out), SlotPackets(slots))
  {
    var s := NewStream(pid, k);
    ok, slots := PushAll(s, packets);
    panicked := s.sink.panicked;
  }

  /** The failing side, as a run: a PUSI packet without payload ends the program as soon as a
    * header comes, although the collector and the transformer find nothing wrong. */
  method EmptyStartPanics(pid: nat, keys: Keys) returns (panicked: bool)
    ensures panicked
  {
    EmptyStartIsFine(pid, keys);
    var ok, slots;
    ok, slots, panicked := Run(pid, AudioStream(AF.AAC, keys), [EmptyStart(pid), LateHeader(pid)]);
  }

  lemma EmptyStartIsFine(pid: nat, keys: Keys)
    ensures var packets := [EmptyStart(pid), LateHeader(pid)];
      && Admitted(packets) && AllOn(pid, packets) && !AllPusi(packets)
      && Fine(CodecFor(AudioStream(AF.AAC, keys)), packets)
  {
    var empty, late := EmptyStart(pid), LateHeader(pid);
    var packets := [empty, late];
    PusiWithoutPayload(pid);
    assert packets[..0] == [] && packets[..1] == [empty];
    assert !PusiHasPayload(packets[0]);
    var pes := Received(packets).state.out;
    assert pes == [PES(late.payload, [], true)];
    NothingIsFine(CodecFor(AudioStream(AF.AAC, keys)).read, keys, late.payload);
  }

  lemma NothingIsFine(read: AF.Reader, keys: Keys, header: seq<byte>)
    ensures Accepted(M.AudioCodec(read, keys), [PES(header, [], true)])
  {
    var pes, none: seq<PES> := [PES(header, [], true)], [];
    assert pes[..0] == none;
    assert Payloads(none) + [] == [];
    assert AS.SplitFrames(read, []) == Some([]);
    assert Flatten(AF.SealFrames(read, keys, keys.iv, [])) == [];
    var inputs := InputsOf(M.AudioCodec(read, keys), pes);
    assert inputs[..0] == [];
  }

  // ---- what the transformer sends is well formed ----

  lemma ClearedFine(header: seq<byte>, payload: seq<byte>)
    requires HeaderFine(header)
    ensures UnitOk(A.ClearLength(header), payload)
  {
  }

  lemma TransformedWhole(c: M.Codec, pes: seq<PES>, i: nat)
    requires Accepted(c, pes) && i < |pes| && Whole(pes[i])
    ensures |Transformed(c, pes)| == |pes| && Whole(Transformed(c, pes)[i])
  {
    var inputs := InputsOf(c, pes);
    var images := M.ImagesOf(c, Payloads(pes)).value;
    ShareKeepsHeader(inputs, images, i);
    match c {
      case AvcCodec(_) => ClearedFine(pes[i].header, Transformed(c, pes)[i].payload);
      case AudioCodec(read, keys) =>
        var out := Flatten(AF.SealFrames(read, keys, keys.iv, AS.SplitFrames(read, Payloads(pes)).value));
        R.LengthsKept(inputs, out, i);
    }
  }

  // ---- the receiver ----

  function AsUnits(pes: seq<PES>): (r: seq<Unit>)
    ensures |r| == |pes|
  {
    seq(|pes|, i requires 0 <= i < |pes| => Unit(pes[i].header, pes[i].payload))
  }

  /** Whoever collects the output packets gets exactly the transformed PES packets. */
  lemma ReceiverGetsTransformed(pid: nat, c: M.Codec, packets: seq<Packet>, out: seq<Packet>)
    requires Fine(c, packets)
    requires Output(pid, packets, Transformed(c, Received(packets).state.out), out)
    ensures Received(out) == PC.Ok(PC.State(PC.Idle, Transformed(c, Received(packets).state.out)))
  {
    var pes := Received(packets).state.out;
    var sent := Transformed(c, pes);
    ReceivedWhole(packets);
    forall i | 0 <= i < |pes| ensures |sent| == |pes| && Whole(sent[i]) {
      TransformedWhole(c, pes, i);
    }
    assert |sent| == |pes|;
    WholeUnitsReceived(sent, out);
  }

  lemma WholeUnitsReceived(sent: seq<PES>, out: seq<Packet>)
    requires Units(out) == PESUnits(sent)
    requires forall i :: 0 <= i < |sent| ==> Whole(sent[i])
    ensures Received(out) == PC.Ok(PC.State(PC.Idle, sent))
  {
    var units := AsUnits(sent);
    assert PESUnits(sent) == [[]] + AllUnitBytes(units);
    assert PESUnits(sent)[1..] == AllUnitBytes(units);
    assert Complete(units) == sent;
    GroupedReassembles(PayloadParts(out));
    assert ChunksOf(PayloadParts(out)) == PacketChunks(out);
    forall i | 0 <= i < |units| ensures UnitOk(units[i].header, units[i].payload) {
      assert Whole(sent[i]);
    }
    CollectorRecovers(units, PacketChunks(out));
  }

  /** The same header with a PES_packet_length of 0. */
  predicate LengthCleared(went: seq<byte>, got: seq<byte>) {
    |went| >= 6 && got == went[4 := 0][5 := 0]
  }

  /** The receiver of an AVC stream finds the NAL units of the input, transformed, between the
    * same start codes, and decrypting them gives the elementary stream that went in. */
  lemma AvcEndToEnd(pid: nat, keys: Keys, enabled: bool, packets: seq<Packet>, out: seq<Packet>)
    requires Fine(CodecFor(AvcStream(keys, enabled)), packets)
    requires Output(pid, packets, Transformed(CodecFor(AvcStream(keys, enabled)), Received(packets).state.out), out)
    ensures Received(out).Ok? && |Received(out).state.out| == |Received(packets).state.out|
    ensures var went, got := Payloads(Received(packets).state.out), Payloads(Received(out).state.out);
      && AB.Split(went).Some? && AB.Split(got).Some?
      && T.SentStream(Config(keys, enabled), AB.Split(went).value, AB.Split(got).value)
      && (Invertible(keys) ==> AB.Render(T.RestoreStream(Config(keys, enabled), AB.Split(got).value)) == went)
    ensures forall i :: 0 <= i < |Received(packets).state.out| ==>
      LengthCleared(Received(packets).state.out[i].header, Received(out).state.out[i].header)
  {
    var cfg := Config(keys, enabled);
    var c := CodecFor(AvcStream(keys, enabled));
    var pes := Received(packets).state.out;
    var stream := AB.Split(Payloads(pes)).value;
    ReceiverGetsTransformed(pid, c, packets, out);
    SharedPayloads(InputsOf(c, pes), StreamImages(cfg, stream));
    AB.SplitSound(Payloads(pes));
    T.BoundariesSurvive(cfg, stream);
    if Invertible(keys) {
      T.StreamRecovered(cfg, Payloads(pes));
    }
    ReceivedWhole(packets);
    forall i | 0 <= i < |pes| ensures LengthCleared(pes[i].header, Transformed(c, pes)[i].header) {
      assert Whole(pes[i]);
      ShareKeepsHeader(InputsOf(c, pes), StreamImages(cfg, stream), i);
    }
  }

  /** The receiver of an audio stream finds as many frames with the same headers in PES
    * packets as long as those that went in, and opening the frames gives the stream that went in. */
  lemma AudioEndToEnd(pid: nat, codec: AF.Codec, keys: Keys, packets: seq<Packet>, out: seq<Packet>)
    requires Fine(CodecFor(AudioStream(codec, keys)), packets)
    requires Output(pid, packets, Transformed(CodecFor(AudioStream(codec, keys)), Received(packets).state.out), out)
    ensures Received(out).Ok?
    ensures var went, got := Received(packets).state.out, Received(out).state.out;
      && |got| == |went| && (forall i :: 0 <= i < |went| ==>
           got[i].header == went[i].header && |got[i].payload| == |went[i].payload|)
    ensures var read := AF.ReaderOf(codec);
      var went, got := Payloads(Received(packets).state.out), Payloads(Received(out).state.out);
      && U.WholeFrames(read, went) && U.WholeFrames(read, got)
      && AS.SentFrames(read, keys, keys.iv, AS.SplitFrames(read, went).value, AS.SplitFrames(read, got).value)
      && (Invertible(keys) ==>
            Flatten(AS.OpenFrames(read, keys, keys.iv, AS.SplitFrames(read, got).value)) == went)
  {
    var c, read := CodecFor(AudioStream(codec, keys)), AF.ReaderOf(codec);
    var pes := Received(packets).state.out;
    var sealed := Flatten(AF.SealFrames(read, keys, keys.iv, AS.SplitFrames(read, Payloads(pes)).value));
    ReceiverGetsTransformed(pid, c, packets, out);
    forall i | 0 <= i < |pes|
      ensures Transformed(c, pes)[i].header == pes[i].header && |Transformed(c, pes)[i].payload| == |pes[i].payload|
    {
      ShareKeepsHeader(InputsOf(c, pes), Singles(sealed), i);
      R.LengthsKept(InputsOf(c, pes), sealed, i);
    }
    SharedPayloads(InputsOf(c, pes), Singles(sealed));
    FlattenSingles(sealed);
    R.Recover(read, keys, Payloads(pes));
  }

  // ---- on the wire ----

  /** The packet was parsed from 188 bytes. */
  ghost predicate Arrived(p: Packet) {
    exists d: seq<byte> :: |d| == PACKET_SIZE && Parse(d) == Some(p)
  }

  lemma ArrivedFine(p: Packet)
    requires Arrived(p)
    ensures p.pid < 0x2000 && PacketFine(p)
  {
    var d: seq<byte> :| |d| == PACKET_SIZE && Parse(d) == Some(p);
    var header := d[|d| - PACKET_SIZE + 1..];
    assert ParseHeader(header) == Some(p);
    if p.adaptation.Some? {
      ParsedFine(header[3..]);
    }
  }

  lemma {:induction false} SourceFine(packets: seq<Packet>)
    requires forall i :: 0 <= i < |packets| ==> Arrived(packets[i])
    ensures AllFine(SourceFields(packets))
    decreases |packets|
  {
    if packets == [] {
      assert SourceFields(packets) == [[]];
    } else {
      var n := |packets| - 1;
      assert packets == packets[..n] + [packets[n]];
      SourceFine(packets[..n]);
      ArrivedFine(packets[n]);
      SourceFieldsSnoc(packets[..n], packets[n]);
      FineExtend(SourceFields(packets[..n]), SourcePart(packets[n]));
    }
  }

  lemma FineExtend(groups: seq<seq<Field>>, part: Part<Field>)
    requires groups != [] && AllFine(groups) && forall j :: 0 <= j < |part.items| ==> FieldFine(part.items[j])
    ensures AllFine(Extend(groups, part))
  {
  }

  /** The continuity counters of the output go on from that of the first input packet: a packet with a
    * payload has the next number, one without repeats the number before. */
  lemma CountersGoOn(pid: nat, packets: seq<Packet>, pes: seq<PES>, out: seq<Packet>, i: nat)
    requires packets != [] && Output(pid, packets, pes, out) && i < |out|
    ensures var first := packets[0].cc + if packets[0].hasPayload then 0 else 1;
      out[i].cc == (first + PayloadPackets(out[..i]) + if out[i].hasPayload then 0 else 15) % 16
  {
    hide Output;
    CountersFrom(pid, packets, pes, out, i);
    var m := PayloadPackets(out[..i]) + if out[i].hasPayload then 0 else 15;
    SameModulo(packets[0].cc, m);
    SameModulo(packets[0].cc + 1, m);
    SameModulo(packets[0].cc % 16 + 1, m);
    SameModulo(packets[0].cc, 1);
  }

  lemma CountersFrom(pid: nat, packets: seq<Packet>, pes: seq<PES>, out: seq<Packet>, i: nat)
    requires packets != [] && Output(pid, packets, pes, out) && i < |out|
    ensures out[i].cc
      == (FirstCounter(packets[0]) + PayloadPackets(out[..i]) + if out[i].hasPayload then 0 else 15) % 16
  {
    CounterValues(FirstCounter(packets[0]), out, i);
  }

  lemma SameModulo(n: nat, m: nat)
    ensures (n % 16 + m) % 16 == (n + m) % 16
  {
    assert n + m == n / 16 * 16 + (n % 16 + m);
  }

  /** If the input packets were parsed from 188 bytes each, every output packet takes exactly
    * 188 bytes with nothing filled up, and reads back as it was sent. */
  lemma OnTheWire(pid: nat, packets: seq<Packet>, pes: seq<PES>, out: seq<Packet>, i: nat)
    requires packets != [] && AllOn(pid, packets) && forall j :: 0 <= j < |packets| ==> Arrived(packets[j])
    requires Output(pid, packets, pes, out) && i < |out|
    ensures Used(out[i]) == 188 && Serialize(out[i]).Some? && Parse(Serialize(out[i]).value) == Some(out[i])
  {
    SourceFine(packets);
    ArrivedFine(packets[0]);
    PacketsFine(out);
    CounterValues(FirstCounter(packets[0]), out, i);
    PacketOnWire(pid, out[i]);
  }
}
