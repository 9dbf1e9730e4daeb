/** What the PES collector has delivered at any point of its input: PES packets that agree
  * with their own length fields, and payload that only ever grows.
  */
module PesShapes {
  import opened Bytes
  import opened PesQueues
  import opened PesRuns
  import PC = PesCollector
  import opened PesFraming
  import opened Packets
  import opened StreamModel

  /** The PES packets of an input. */
  function Received(packets: seq<Packet>): (r: PC.Result)
    ensures r.Ok? ==> PC.StateOk(r.state)
  {
    match Collect(packets)
    case Failed(e) => PC.Failed(e)
    case Ok(s) => PC.Finish(s)
  }

  // ---- the PES packets are well formed ----

  /** Payload bytes still expected: -1 for an unbounded PES. */
  predicate Expects(p: PES, remaining: int) {
    && HeaderFine(p.header)
    && (if Announced(p.header) == 0 then remaining == -1
        else Announced(p.header) == |p.header| - 6 + |p.payload| + remaining && remaining > 0)
  }

  predicate Whole(p: PES) {
    p.ended && UnitOk(p.header, p.payload)
  }

  ghost predicate OutOk(s: PC.State) {
    && (s.phase.InPayload? ==> s.out != [] && Expects(s.out[|s.out| - 1], s.phase.remaining))
    && forall i :: 0 <= i < |s.out| - (if s.phase.InPayload? then 1 else 0) ==> Whole(s.out[i])
  }

  lemma HeaderStepKeeps(out: seq<PES>, header: seq<byte>)
    requires !PC.Open(out) && header != [] && PC.HeaderStep(out, header).Ok?
    requires PC.HeaderLength(header) == 0 || |header| <= PC.HeaderLength(header)
    requires OutOk(PC.State(PC.Idle, out))
    ensures OutOk(PC.HeaderStep(out, header).state)
  {
  }

  lemma ByteKeeps(s: PC.State, b: byte)
    requires PC.StateOk(s) && OutOk(s) && PC.Byte(s, b).Ok?
    ensures OutOk(PC.Byte(s, b).state)
  {
    match s.phase {
      case InHeader(bytes) => HeaderStepKeeps(s.out, bytes + [b]);
      case _ =>
    }
  }

  lemma {:induction false} BytesKeep(s: PC.State, data: seq<byte>)
    requires PC.StateOk(s) && OutOk(s) && PC.ManyBytes(s, data).Ok?
    ensures OutOk(PC.ManyBytes(s, data).state)
    decreases data
  {
    if data != [] {
      ByteKeeps(s, data[0]);
      BytesKeep(PC.Byte(s, data[0]).state, data[1..]);
    }
  }

  lemma FinishKeeps(s: PC.State)
    requires PC.StateOk(s) && OutOk(s) && PC.Finish(s).Ok?
    ensures OutOk(PC.Finish(s).state)
  {
  }

  lemma {:induction false} CollectKeeps(packets: seq<Packet>)
    requires Collect(packets).Ok?
    ensures OutOk(Collect(packets).state)
    decreases |packets|
  {
    if packets != [] {
      var n := |packets| - 1;
      var p := packets[n];
      assert packets == packets[..n] + [p];
      assert PacketChunks(packets)[..n] == PacketChunks(packets[..n]);
      CollectSnoc(packets[..n], p);
      CollectKeeps(packets[..n]);
      var s := Collect(packets[..n]).state;
      if p.pusi {
        FinishKeeps(s);
        BytesKeep(PC.Finish(s).state.(phase := PC.InHeader([])), p.payload);
      } else if s.phase != PC.Idle {
        BytesKeep(s, p.payload);
      }
    }
  }

  /** Every PES that a flushed collector has delivered agrees with its own length fields. */
  lemma ReceivedWhole(packets: seq<Packet>)
    requires Received(packets).Ok?
    ensures forall i :: 0 <= i < |Received(packets).state.out| ==> Whole(Received(packets).state.out[i])
  {
    CollectKeeps(packets);
    FinishKeeps(Collect(packets).state);
  }

  lemma CollectedHeaders(packets: seq<Packet>)
    requires Collect(packets).Ok?
    ensures forall i :: 0 <= i < |Collect(packets).state.out| ==> HeaderFine(Collect(packets).state.out[i].header)
  {
    CollectKeeps(packets);
    var s := Collect(packets).state;
    forall i | 0 <= i < |s.out| ensures HeaderFine(s.out[i].header) {
      if i < |s.out| - (if s.phase.InPayload? then 1 else 0) {
        assert Whole(s.out[i]);
      }
    }
  }

  // ---- the payload only grows ----

  lemma LastPayload(pes: seq<PES>, data: seq<byte>, ended: bool)
    requires pes != []
    ensures var n := |pes| - 1;
      Payloads(pes[n := pes[n].(payload := pes[n].payload + data, ended := ended)]) == Payloads(pes) + data
  {
    var n := |pes| - 1;
    var after := pes[n := pes[n].(payload := pes[n].payload + data, ended := ended)];
    assert after[..n] == pes[..n];
    ConcatAssociates(Payloads(pes[..n]), pes[n].payload, data);
  }

  lemma NewPayload(pes: seq<PES>, header: seq<byte>, ended: bool)
    ensures Payloads(pes + [PES(header, [], ended)]) == Payloads(pes)
  {
    assert (pes + [PES(header, [], ended)])[..|pes|] == pes;
    assert Payloads(pes) + [] == Payloads(pes);
  }

  lemma ClosedPayload(pes: seq<PES>)
    requires pes != []
    ensures Payloads(PC.EndLast(pes)) == Payloads(pes)
  {
    var n := |pes| - 1;
    assert pes[n].payload + [] == pes[n].payload && Payloads(pes) + [] == Payloads(pes);
    LastPayload(pes, [], true);
  }

  lemma ByteGrows(s: PC.State, b: byte)
    requires PC.StateOk(s) && PC.Byte(s, b).Ok?
    ensures Payloads(s.out) <= Payloads(PC.Byte(s, b).state.out)
  {
    match s.phase {
      case InHeader(bytes) =>
        NewPayload(s.out, bytes + [b], true);
        NewPayload(s.out, bytes + [b], false);
      case InPayload(_) =>
        LastPayload(s.out, [b], s.out[|s.out| - 1].ended);
        ClosedPayload(PC.AppendLast(s.out, [b]));
      case Idle =>
    }
  }

  lemma {:induction false} BytesGrow(s: PC.State, data: seq<byte>)
    requires PC.StateOk(s) && PC.ManyBytes(s, data).Ok?
    ensures Payloads(s.out) <= Payloads(PC.ManyBytes(s, data).state.out)
    decreases data
  {
    if data != [] {
      ByteGrows(s, data[0]);
      BytesGrow(PC.Byte(s, data[0]).state, data[1..]);
    }
  }

  lemma FinishGrows(s: PC.State)
    requires PC.StateOk(s) && PC.Finish(s).Ok?
    ensures Payloads(PC.Finish(s).state.out) == Payloads(s.out)
  {
    if s.phase.InPayload? {
      ClosedPayload(s.out);
    }
  }

  lemma ConsumeGrows(s: PC.State, pusi: bool, payload: seq<byte>)
    requires PC.StateOk(s) && PC.Consume(s, pusi, payload).Ok?
    ensures Payloads(s.out) <= Payloads(PC.Consume(s, pusi, payload).state.out)
  {
    if pusi {
      FinishGrows(s);
      BytesGrow(PC.Finish(s).state.(phase := PC.InHeader([])), payload);
    } else if s.phase != PC.Idle {
      BytesGrow(s, payload);
    }
  }

  /** Every beginning of an input that is collected is collected, and gives a beginning of the payload. */
  lemma {:induction false} CollectGrows(packets: seq<Packet>, k: nat)
    requires Collect(packets).Ok? && k <= |packets|
    ensures Collect(packets[..k]).Ok?
    ensures Payloads(Collect(packets[..k]).state.out) <= Payloads(Collect(packets).state.out)
    decreases |packets|
  {
    if k == |packets| {
      assert packets[..k] == packets;
    } else {
      var n := |packets| - 1;
      var p := packets[n];
      CollectLast(packets);
      CollectGrows(packets[..n], k);
      assert packets[..n][..k] == packets[..k];
      ConsumeGrows(Collect(packets[..n]).state, p.pusi, p.payload);
    }
  }

  lemma CollectLast(packets: seq<Packet>)
    requires packets != [] && Collect(packets).Ok?
    ensures var n := |packets| - 1;
      && Collect(packets[..n]).Ok?
      && Collect(packets) == PC.Consume(Collect(packets[..n]).state, packets[n].pusi, packets[n].payload)
  {
    var n := |packets| - 1;
    assert packets == packets[..n] + [packets[n]];
    assert PacketChunks(packets)[..n] == PacketChunks(packets[..n]);
    CollectSnoc(packets[..n], packets[n]);
  }
}
