/** Whole runs of the packetizer, and what a receiver makes of its packets. */
module PacketizerRun {
  import opened Bytes
  import opened Wrappers
  import opened PesQueues
  import opened PesCollector
  import opened PesFraming
  import opened AdaptationField
  import opened Packets
  import opened Carriage
  import opened Packetizer

  datatype Call =
    | Begin(header: seq<byte>)
    | Write(data: seq<byte>)
    | End
    | Next(field: Option<Field>)
    | Alone(field: Option<Field>)
    | Take

  /** What has been written, and the field that waits while no PES is open. */
  datatype Story = Story(written: Written, open: bool, waiting: Option<Field>)

  const BLANK := Story(NOTHING_WRITTEN, false, None)

  /** One call: None is an error. */
  function Told(s: Story, c: Call): (r: Option<Story>)
    requires WrittenOk(s.written)
    ensures r.Some? ==> WrittenOk(r.value.written)
  {
    match c
    case Begin(header) =>
      if s.open || |header| < 6 || !PrefixOk(header) then None
      else Some(Story(AddUnit(s.written, s.waiting, header), true, None))
    case Write(data) => if !s.open then None else Some(s.(written := AddBytes(s.written, data)))
    case End => if !s.open then None else Some(s.(open := false, waiting := None))
    case Next(field) =>
      if Meaningful(field) == [] then Some(s)
      else if BareSize(field.value) >= BODY then None
      else Some(Story(AddField(s.written, field), s.open, if s.open then None else field))
    case Alone(field) =>
      if Meaningful(field) == [] then Some(s)
      else if BareSize(field.value) > BODY then None
      else Some(Story(AddField(s.written, field), s.open, None))
    case Take => Some(s)
  }

  function AllTold(s: Story, calls: seq<Call>): (r: Option<Story>)
    requires WrittenOk(s.written)
    ensures r.Some? ==> WrittenOk(r.value.written)
    decreases |calls|
  {
    if calls == [] then Some(s)
    else match Told(s, calls[0])
      case None => None
      case Some(t) => AllTold(t, calls[1..])
  }

  /** The packetizer's history is the story. */
  ghost predicate Tells(w: TSPacketizer, s: Story)
    reads w, w.payload
  {
    && w.Valid() && w.written == s.written && w.pesOpen == s.open
    && (!s.open ==> w.Current() == Pending(false, [], s.waiting))
    && (s.open ==> s.waiting.None?)
  }

  method Perform(w: TSPacketizer, c: Call, ghost s: Story) returns (ok: bool, out: seq<Packet>)
    requires Tells(w, s) && WrittenOk(s.written)
    modifies w, w.payload
    ensures ok == Told(s, c).Some?
    ensures ok ==> Tells(w, Told(s, c).value) && w.taken == old(w.taken) + out
    ensures ok ==> w.start == old(w.start) && w.mark == old(w.mark)
  {
    ok, out := true, [];
    match c {
      case Begin(header) => ok := w.BeginPES(header);
      case Write(data) => ok := w.WritePESPayload(data);
      case End => ok := w.EndPES();
      case Next(field) => ok := w.SetNextPacketAdaptationField(field);
      case Alone(field) => ok := w.WriteAdaptationOnly(field);
      case Take => out := w.TakePackets();
    }
  }

  /** Packets that carry exactly what was written, rightly numbered from `cc`. */
  ghost predicate Delivers(pid: nat, cc: byte, packets: seq<Packet>, w: Written) {
    && Units(packets) == w.units && Fields(packets) == w.fields && StartsKept(Starts(packets), w.starts)
    && Counted(cc, packets) && AllMade(pid, packets)
  }

  lemma CarriedIsDelivered(pid: nat, packets: seq<Packet>, w: Written, start: byte, cc: byte)
    requires Carries(packets, NOTHING, w) && Issued(pid, packets, start, 0, cc)
    ensures Delivers(pid, start, packets, w)
  {
    assert UnfoldCarries(0) && UnfoldIssued(0);
    ExtendNothing(Units(packets));
    ExtendNothing(Fields(packets));
    assert packets[0..] == packets;
    assert StartsWith(packets, NOTHING) == Starts(packets);
  }

  /** Every run, however the packets are taken, fails exactly when a call is out of place or
    * a field is too long, or a PES is left open; otherwise the packets taken are the whole story. */
  method Packetize(pid: nat, cc: byte, calls: seq<Call>) returns (ok: bool, out: seq<Packet>)
    ensures ok <==> AllTold(BLANK, calls).Some? && !AllTold(BLANK, calls).value.open
    ensures ok ==> Delivers(pid, cc, out, AllTold(BLANK, calls).value.written)
  {
    var w := new TSPacketizer(pid);
    w.SetContinuityCounter(cc);
    out := [];
    ghost var s := BLANK;
    for i := 0 to |calls|
      invariant WrittenOk(s.written) && Tells(w, s)
      invariant AllTold(BLANK, calls) == AllTold(s, calls[i..])
      invariant w.taken == out && w.start == cc && w.mark == 0 && w.pid == pid
      invariant fresh(w) && fresh(w.payload)
    {
      assert calls[i..][1..] == calls[i + 1..];
      var packets;
      ok, packets := Perform(w, calls[i], s);
      if !ok {
        return;
      }
      s := Told(s, calls[i]).value;
      out := out + packets;
    }
    ok := w.Flush();
    if ok {
      assert UnfoldPacketizer(0);
      CarriedIsDelivered(pid, w.Emitted(), w.written, w.start, w.cc);
      var last := w.TakePackets();
      out := out + last;
    }
  }

  // ---- the receiver ----

  /** Well-formed PES units, written in any fragments, with fields anywhere between, are
    * exactly what a PES collector gets out of the packets. */
  lemma CollectorGetsUnits(pid: nat, cc: byte, packets: seq<Packet>, w: Written, units: seq<Unit>)
    requires Delivers(pid, cc, packets, w) && w.units == [[]] + AllUnitBytes(units)
    requires forall i :: 0 <= i < |units| ==> UnitOk(units[i].header, units[i].payload)
    ensures var r := ConsumeAll(State(Idle, []), ChunksOf(PayloadParts(packets)));
      r.Ok? && Finish(r.state) == Ok(State(Idle, Complete(units)))
  {
    GroupedReassembles(PayloadParts(packets));
    assert w.units[1..] == AllUnitBytes(units);
    CollectorRecovers(units, ChunksOf(PayloadParts(packets)));
  }

  predicate FieldFine(f: Field) {
    NoWrap(f) && FieldOk(f)
  }

  ghost predicate AllFine(fields: seq<seq<Field>>) {
    forall i, j :: 0 <= i < |fields| && 0 <= j < |fields[i]| ==> FieldFine(fields[i][j])
  }

  predicate PacketFine(p: Packet) {
    p.adaptation.Some? ==> FieldFine(p.adaptation.value)
  }

  lemma FineBack(before: seq<seq<Field>>, part: Part<Field>)
    requires before != [] && AllFine(Extend(before, part))
    ensures AllFine(before)
    ensures forall j :: 0 <= j < |part.items| ==> FieldFine(part.items[j])
  {
    var all, n := Extend(before, part), |before| - 1;
    if part.start {
      forall i, j | 0 <= i < |before| && 0 <= j < |before[i]| ensures FieldFine(before[i][j]) {
        assert all[i][j] == before[i][j];
      }
      forall j | 0 <= j < |part.items| ensures FieldFine(part.items[j]) {
        assert all[|before|][j] == part.items[j];
      }
    } else {
      forall i, j | 0 <= i < |before| && 0 <= j < |before[i]| ensures FieldFine(before[i][j]) {
        assert all[i][j] == before[i][j];
      }
      forall j | 0 <= j < |part.items| ensures FieldFine(part.items[j]) {
        assert all[n][|before[n]| + j] == part.items[j];
      }
    }
  }

  lemma {:induction false} PacketsFine(packets: seq<Packet>)
    requires AllFine(Fields(packets))
    ensures forall i :: 0 <= i < |packets| ==> PacketFine(packets[i])
    decreases |packets|
  {
    if packets != [] {
      var n := |packets| - 1;
      var p := packets[n];
      assert packets == packets[..n] + [p];
      UnitsSnoc(packets[..n], p);
      FineBack(Fields(packets[..n]), FieldPart(p));
      if p.adaptation.Some? && HasData(p.adaptation.value) {
        assert FieldFine(FieldPart(p).items[0]);
      }
      PacketsFine(packets[..n]);
    }
  }

  lemma PacketOnWire(pid: nat, p: Packet)
    requires Made(pid, p) && PacketFine(p) && pid < 0x2000 && p.cc < 16
    ensures Used(p) == PACKET_SIZE && Serialize(p).Some? && Parse(Serialize(p).value) == Some(p)
  {
    PacketBack(p);
    assert p.payload + Fill(0) == p.payload;
  }

  /** On the wire every packet takes exactly 188 bytes with nothing filled up, and reads
    * back as it was sent, if the fields are such as a parser delivers. */
  lemma WireRoundTrip(pid: nat, cc: byte, packets: seq<Packet>, w: Written, i: nat)
    requires Delivers(pid, cc, packets, w) && AllFine(w.fields) && pid < 0x2000 && cc < 16
    requires i < |packets|
    ensures Used(packets[i]) == 188 && Serialize(packets[i]).Some?
    ensures Parse(Serialize(packets[i]).value) == Some(packets[i])
  {
    PacketsFine(packets);
    CounterValues(cc, packets, i);
    PacketOnWire(pid, packets[i]);
  }

  /** A field that was parsed from a packet is such a field. */
  lemma ParsedFine(d: seq<byte>)
    requires |d| <= BODY && ReadField(d).Got?
    ensures FieldFine(ReadField(d).value)
  {
    ParsedNoWrap(d);
    ParsedOk(d);
  }

  // ---- no field is lost or merged ----

  /** The fields of the calls, in order. */
  function Given(c: Call): seq<Field> {
    match c
    case Next(f) => Meaningful(f)
    case Alone(f) => Meaningful(f)
    case _ => []
  }

  function AllGiven(calls: seq<Call>): seq<Field>
    decreases |calls|
  {
    if calls == [] then [] else Given(calls[0]) + AllGiven(calls[1..])
  }

  function Joined(groups: seq<seq<Field>>): seq<Field>
    decreases |groups|
  {
    if groups == [] then [] else Joined(groups[..|groups| - 1]) + groups[|groups| - 1]
  }

  lemma JoinedExtend(groups: seq<seq<Field>>, p: Part<Field>)
    requires groups != []
    ensures Joined(Extend(groups, p)) == Joined(groups) + p.items
  {
    var n := |groups| - 1;
    var all := Extend(groups, p);
    if p.start {
      assert all[..n + 1] == groups;
    } else {
      assert all[..n] == groups[..n];
      ConcatAssociates(Joined(groups[..n]), groups[n], p.items);
    }
  }

  function Carried(packets: seq<Packet>): seq<Field>
    decreases |packets|
  {
    if packets == [] then []
    else Carried(packets[..|packets| - 1]) + Meaningful(packets[|packets| - 1].adaptation)
  }

  lemma {:induction false} CarriedJoined(packets: seq<Packet>)
    ensures Joined(Fields(packets)) == Carried(packets)
    decreases |packets|
  {
    if packets == [] {
      assert Fields(packets) == [[]];
      assert Joined([[]][..0]) == [];
    } else {
      var n := |packets| - 1;
      assert packets == packets[..n] + [packets[n]];
      UnitsSnoc(packets[..n], packets[n]);
      JoinedExtend(Fields(packets[..n]), FieldPart(packets[n]));
      CarriedJoined(packets[..n]);
    }
  }

  /** The field that waits is the last one accepted. */
  ghost predicate WaitsLast(s: Story) {
    && WrittenOk(s.written)
    && (Meaningful(s.waiting) != [] ==>
          var last := s.written.fields[|s.written.fields| - 1];
          last != [] && Meaningful(s.waiting) == [last[|last| - 1]])
  }

  lemma MovedField(w: Written, waiting: Option<Field>, header: seq<byte>)
    requires WaitsLast(Story(w, false, waiting))
    ensures Joined(AddUnit(w, waiting, header).fields) == Joined(w.fields)
  {
    var n := |w.fields| - 1;
    var last, all := w.fields[n], AddUnit(w, waiting, header).fields;
    if Meaningful(waiting) == [] {
      JoinedExtend(w.fields, Part(true, []));
    } else {
      var front := last[..|last| - 1];
      assert all == (w.fields[..n] + [front]) + [Meaningful(waiting)];
      assert all[..n + 1] == w.fields[..n] + [front] && all[n + 1] == Meaningful(waiting);
      assert (w.fields[..n] + [front])[..n] == w.fields[..n];
      assert last == front + Meaningful(waiting);
      ConcatAssociates(Joined(w.fields[..n]), front, Meaningful(waiting));
    }
  }

  lemma ToldFields(s: Story, c: Call)
    requires WaitsLast(s) && Told(s, c).Some?
    ensures WaitsLast(Told(s, c).value)
    ensures Joined(Told(s, c).value.written.fields) == Joined(s.written.fields) + Given(c)
  {
    var nothing: seq<Field> := [];
    assert Joined(s.written.fields) + nothing == Joined(s.written.fields);
    match c {
      case Begin(header) => MovedField(s.written, s.waiting, header);
      case Next(f) => JoinedExtend(s.written.fields, Part(false, Meaningful(f)));
      case Alone(f) => JoinedExtend(s.written.fields, Part(false, Meaningful(f)));
      case _ =>
    }
  }

  lemma {:induction false} AllToldFields(s: Story, calls: seq<Call>)
    requires WaitsLast(s) && AllTold(s, calls).Some?
    ensures Joined(AllTold(s, calls).value.written.fields) == Joined(s.written.fields) + AllGiven(calls)
    decreases |calls|
  {
    if calls == [] {
      var nothing: seq<Field> := [];
      assert Joined(s.written.fields) + nothing == Joined(s.written.fields);
    } else {
      ToldFields(s, calls[0]);
      AllToldFields(Told(s, calls[0]).value, calls[1..]);
      ConcatAssociates(Joined(s.written.fields), Given(calls[0]), AllGiven(calls[1..]));
    }
  }

  /** Every field that says something is on exactly one packet, alone, in call order. */
  lemma FieldsConserved(pid: nat, cc: byte, calls: seq<Call>, packets: seq<Packet>)
    requires AllTold(BLANK, calls).Some? && Delivers(pid, cc, packets, AllTold(BLANK, calls).value.written)
    ensures Carried(packets) == AllGiven(calls)
  {
    CarriedJoined(packets);
    AllToldFields(BLANK, calls);
    assert NOTHING_WRITTEN.fields[..0] == [];
    assert Joined(NOTHING_WRITTEN.fields) == [];
  }

  /** A field given while no PES is open and followed by a PES is on the packet that starts it. */
  lemma FieldStartsUnit(s: Story, field: Option<Field>, header: seq<byte>)
    requires WrittenOk(s.written) && !s.open && AllTold(s, [Next(field), Begin(header)]).Some?
    requires Meaningful(field) != []
    ensures var w := AllTold(s, [Next(field), Begin(header)]).value.written;
      && w.starts == s.written.starts + [Meaningful(field)]
      && w.fields == s.written.fields + [Meaningful(field)]
  {
    var calls := [Next(field), Begin(header)];
    assert calls[1..] == [Begin(header)] && calls[1..][1..] == [];
    var t := Told(s, Next(field)).value;
    assert AllTold(s, calls) == AllTold(t, calls[1..]) == AllTold(Told(t, Begin(header)).value, []);
    var w := AddField(s.written, field);
    var n := |s.written.fields| - 1;
    var last := w.fields[n];
    assert last[..|last| - 1] == s.written.fields[n];
    assert w.fields[..n] + [s.written.fields[n]] == s.written.fields;
  }
}
