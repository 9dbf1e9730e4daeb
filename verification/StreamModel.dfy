/** What passes between the stages of one media stream, as values. */
module StreamModel {
  import opened Bytes
  import opened Wrappers
  import opened PesQueues
  import opened PesRuns
  import PC = PesCollector
  import opened PesFraming
  import opened Packets
  import opened Carriage
  import opened AlignerModel
  import opened MediaTransformers

  // ---- event traces ----

  /** Every beginning of a proper trace is a proper trace. */
  lemma {:induction false} GroupBefore(events: seq<Event>, k: nat)
    requires Group(events).Some? && k <= |events|
    ensures Group(events[..k]).Some?
    ensures |Group(events[..k]).value| <= |Group(events).value|
    ensures k < |events| ==> Group(events[..k + 1]) == Handle(Group(events[..k]).value, events[k])
    decreases |events|
  {
    if k == |events| {
      assert events[..k] == events;
    } else {
      var n := |events| - 1;
      GroupBefore(events[..n], k);
      assert events[..n][..k] == events[..k];
      assert events[..k + 1][..k] == events[..k];
    }
  }

  // ---- collector to transformer ----

  function InputOf(c: Codec, p: PES): Input {
    Input(HeaderFor(c, p.header), |p.payload|, p.ended)
  }

  function InputsOf(c: Codec, pes: seq<PES>): (r: seq<Input>)
    ensures |r| == |pes|
  {
    seq(|pes|, i requires 0 <= i < |pes| => InputOf(c, pes[i]))
  }

  /** Changing the last PES changes the last input and, at its end, the stream. */
  lemma LastInput(c: Codec, pes: seq<PES>, data: seq<byte>, ended: bool)
    requires pes != []
    ensures var n := |pes| - 1;
      var last := pes[n].(payload := pes[n].payload + data, ended := ended);
      var was := Last(InputsOf(c, pes));
      && Payloads(pes[n := last]) == Payloads(pes) + data
      && InputsOf(c, pes[n := last]) == ReplaceLast(InputsOf(c, pes), was.(size := was.size + |data|, ended := ended))
  {
    var n := |pes| - 1;
    var after := pes[n := pes[n].(payload := pes[n].payload + data, ended := ended)];
    assert after[..n] == pes[..n];
    ConcatAssociates(Payloads(pes[..n]), pes[n].payload, data);
    assert InputsOf(c, pes)[..n] == InputsOf(c, after)[..n];
  }

  lemma MoreInput(c: Codec, pes: seq<PES>, data: seq<byte>)
    requires PC.Open(pes)
    ensures var after, was := PC.AppendLast(pes, data), Last(InputsOf(c, pes));
      && PC.Open(after) && Payloads(after) == Payloads(pes) + data
      && InputsOf(c, after) == ReplaceLast(InputsOf(c, pes), was.(size := was.size + |data|))
  {
    LastInput(c, pes, data, false);
  }

  lemma EndedInput(c: Codec, pes: seq<PES>)
    requires PC.Open(pes)
    ensures var after, was := PC.EndLast(pes), Last(InputsOf(c, pes));
      && !PC.Open(after) && Payloads(after) == Payloads(pes)
      && InputsOf(c, after) == ReplaceLast(InputsOf(c, pes), was.(ended := true))
  {
    assert pes[|pes| - 1].payload + [] == pes[|pes| - 1].payload && Payloads(pes) + [] == Payloads(pes);
    LastInput(c, pes, [], true);
  }

  lemma NewInput(c: Codec, pes: seq<PES>, header: seq<byte>)
    ensures var after := pes + [PES(header, [], false)];
      && Payloads(after) == Payloads(pes)
      && InputsOf(c, after) == InputsOf(c, pes) + [Input(HeaderFor(c, header), 0, false)]
  {
    var after := pes + [PES(header, [], false)];
    assert after[..|pes|] == pes;
    assert Payloads(pes) + [] == Payloads(pes);
  }

  // ---- transformer to packetizer ----

  /** The bytes of each PES, after nothing that precedes them. */
  function PESUnits(pes: seq<PES>): (r: seq<seq<byte>>)
    ensures |r| == |pes| + 1
  {
    [[]] + seq(|pes|, i requires 0 <= i < |pes| => pes[i].header + pes[i].payload)
  }

  lemma NewUnit(pes: seq<PES>, header: seq<byte>)
    ensures PESUnits(pes + [PES(header, [], false)]) == PESUnits(pes) + [header]
  {
    assert header + [] == header;
  }

  lemma LastUnit(pes: seq<PES>, data: seq<byte>, ended: bool)
    requires pes != []
    ensures var n := |pes| - 1;
      var last := pes[n].(payload := pes[n].payload + data, ended := ended);
      PESUnits(pes[n := last]) == Extend(PESUnits(pes), Part(false, data))
  {
    var n := |pes| - 1;
    ConcatAssociates(pes[n].header, pes[n].payload, data);
  }

  // ---- packets to collector ----

  function ChunkOf(p: Packet): Chunk {
    Chunk(p.pusi, p.payload)
  }

  function PacketChunks(packets: seq<Packet>): (r: seq<Chunk>)
    ensures |r| == |packets|
  {
    seq(|packets|, i requires 0 <= i < |packets| => ChunkOf(packets[i]))
  }

  /** All packets through the PES collector. */
  function Collect(packets: seq<Packet>): PC.Result {
    ConsumeAll(PC.State(PC.Idle, []), PacketChunks(packets))
  }

  lemma CollectSnoc(packets: seq<Packet>, p: Packet)
    requires Collect(packets).Ok?
    ensures Collect(packets + [p]) == PC.Consume(Collect(packets).state, p.pusi, p.payload)
  {
    assert PacketChunks(packets + [p])[..|packets|] == PacketChunks(packets);
  }

  /** PES packets that have begun to arrive: those with a complete header and the one without. */
  function Begun(s: PC.State): nat {
    |s.out| + if s.phase.InHeader? then 1 else 0
  }

  lemma {:induction false} BytesBegin(s: PC.State, data: seq<byte>)
    requires PC.StateOk(s) && PC.ManyBytes(s, data).Ok?
    ensures Begun(PC.ManyBytes(s, data).state) == Begun(s)
    decreases data
  {
    if data != [] {
      BytesBegin(PC.Byte(s, data[0]).state, data[1..]);
    }
  }

  /** A packet begins a PES exactly if its PUSI flag is set. */
  lemma ConsumeBegins(s: PC.State, pusi: bool, payload: seq<byte>)
    requires PC.StateOk(s) && PC.Consume(s, pusi, payload).Ok?
    ensures Begun(PC.Consume(s, pusi, payload).state) == Begun(s) + if pusi then 1 else 0
  {
    if pusi {
      BytesBegin(PC.Finish(s).state.(phase := PC.InHeader([])), payload);
    } else if s.phase != PC.Idle {
      BytesBegin(s, payload);
    }
  }

  lemma FinishBegins(s: PC.State)
    requires PC.StateOk(s) && PC.Finish(s).Ok?
    ensures |PC.Finish(s).state.out| == Begun(s)
  {
  }

  /** Packets with PUSI but without payload. */
  function EmptyPusi(packets: seq<Packet>): nat
    decreases |packets|
  {
    if packets == [] then 0
    else EmptyPusi(packets[..|packets| - 1]) + if PusiHasPayload(packets[|packets| - 1]) then 0 else 1
  }

  lemma {:induction false} NoEmptyPusi(packets: seq<Packet>)
    ensures EmptyPusi(packets) == 0 <==> AllPusi(packets)
    decreases |packets|
  {
    if packets != [] {
      var n := |packets| - 1;
      assert packets == packets[..n] + [packets[n]];
      NoEmptyPusi(packets[..n]);
      AllPusiSnoc(packets[..n], packets[n]);
    }
  }

  /** Every PES that has begun began with a packet that starts a PES, or with a PUSI packet
    * without payload. */
  lemma {:induction false} StartsBegin(packets: seq<Packet>)
    requires Collect(packets).Ok?
    ensures Begun(Collect(packets).state) == |SourceStarts(packets)| + EmptyPusi(packets)
    decreases |packets|
  {
    if packets != [] {
      var n := |packets| - 1;
      var p := packets[n];
      assert packets == packets[..n] + [p];
      assert PacketChunks(packets)[..n] == PacketChunks(packets[..n]);
      CollectSnoc(packets[..n], p);
      StartsBegin(packets[..n]);
      ConsumeBegins(Collect(packets[..n]).state, p.pusi, p.payload);
    }
  }

  /** Each PES that begins finds metadata exactly if every PUSI packet has a payload. */
  lemma MetadataForEach(packets: seq<Packet>)
    requires Collect(packets).Ok?
    ensures Begun(Collect(packets).state) >= |SourceStarts(packets)|
    ensures Begun(Collect(packets).state) == |SourceStarts(packets)| <==> AllPusi(packets)
  {
    StartsBegin(packets);
    NoEmptyPusi(packets);
  }

  /** What the remuxer gives to a stream whose collector is in state s: once no PES is under
    * way, packets with a payload that does not start one pass by. */
  predicate Reaches(s: PC.State, p: Packet) {
    p.pusi || !p.hasPayload || s.phase != PC.Idle
  }

  function EmptyStart(pid: nat): Packet {
    Packet(false, true, false, pid, 0, false, 0, Option.None, [])
  }

  function LateHeader(pid: nat): Packet {
    Packet(false, false, false, pid, 0, true, 0, Option.None, [0, 0, 1, 0xE0, 0, 0, 0x80, 0, 0])
  }

  /** The failing side exists: a PUSI packet without payload, then a packet with a PES header. */
  lemma PusiWithoutPayload(pid: nat)
    ensures Collect([EmptyStart(pid)]) == PC.Ok(PC.State(PC.InHeader([]), []))
    ensures var header: seq<byte> := [0, 0, 1, 0xE0, 0, 0, 0x80, 0, 0];
      Collect([EmptyStart(pid), LateHeader(pid)]) == PC.Ok(PC.State(PC.InPayload(-1), [PES(header, [], false)]))
    ensures SourceStarts([EmptyStart(pid), LateHeader(pid)]) == []
  {
    var empty, late, none: seq<Packet> := EmptyStart(pid), LateHeader(pid), [];
    assert none + [empty] == [empty] && [empty] + [late] == [empty, late];
    assert PacketChunks(none) == [];
    assert Collect(none) == PC.Ok(PC.State(PC.Idle, []));
    CollectSnoc(none, empty);
    CollectSnoc([empty], late);
    CollectHeader(PC.State(PC.InHeader([]), []), late.payload);
    SourceStartsSnoc(none, empty);
    SourceStartsSnoc([empty], late);
  }
}
