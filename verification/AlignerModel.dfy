/** Values of ts/output.go's outputAligner: input metadata waiting for its PES, and output
  * packets matched to input slots.
  */
module AlignerModel {
  import opened Bytes
  import opened Wrappers
  import opened AdaptationField
  import opened Packets
  import opened Carriage
  import opened Packetizer
  import opened PacketizerRun

  datatype Meta = Meta(hasPayload: bool, adaptation: Option<Field>)

  /** One source PES whose output has not begun. */
  datatype PendingMeta = PendingMeta(start: Option<Field>, events: seq<Meta>)

  datatype CompletedSlot = CompletedSlot(token: nat, packets: seq<Packet>)

  function SlotTokens(slots: seq<CompletedSlot>): (r: seq<nat>)
    ensures |r| == |slots|
  {
    seq(|slots|, i requires 0 <= i < |slots| => slots[i].token)
  }

  function SlotPackets(slots: seq<CompletedSlot>): seq<Packet>
    decreases |slots|
  {
    if slots == [] then [] else SlotPackets(slots[..|slots| - 1]) + slots[|slots| - 1].packets
  }

  /** clonePacketMetadata: the field without stuffing, if it says anything. */
  function CloneField(a: Option<Field>): (r: Option<Field>)
    ensures Meaningful(r) == Meaningful(a)
    ensures r.Some? <==> Meaningful(a) != []
  {
    if a.Some? && HasData(a.value) then Some(Strip(a.value)) else None
  }

  // ---- source metadata, by PES ----

  predicate StartsPES(p: Packet) {
    p.hasPayload && p.pusi
  }

  function SourcePart(p: Packet): Part<Field> {
    Part(StartsPES(p), Meaningful(p.adaptation))
  }

  function SourceParts(packets: seq<Packet>): (r: seq<Part<Field>>)
    ensures |r| == |packets|
  {
    seq(|packets|, i requires 0 <= i < |packets| => SourcePart(packets[i]))
  }

  /** The fields of the input, group k+1 starting with the k-th packet that starts a PES. */
  function SourceFields(packets: seq<Packet>): (r: seq<seq<Field>>)
    ensures r != []
  {
    Grouped(SourceParts(packets))
  }

  lemma SourceFieldsSnoc(packets: seq<Packet>, p: Packet)
    ensures SourceFields(packets + [p]) == Extend(SourceFields(packets), SourcePart(p))
  {
    assert SourceParts(packets + [p]) == SourceParts(packets) + [SourcePart(p)];
    GroupedSnoc(SourceParts(packets), SourcePart(p));
  }

  /** The field of each packet that starts a PES. */
  function SourceStarts(packets: seq<Packet>): seq<seq<Field>>
    decreases |packets|
  {
    if packets == [] then []
    else
      var n := |packets| - 1;
      SourceStarts(packets[..n]) + if StartsPES(packets[n]) then [Meaningful(packets[n].adaptation)] else []
  }

  lemma SourceStartsSnoc(packets: seq<Packet>, p: Packet)
    ensures SourceStarts(packets + [p]) == SourceStarts(packets) + if StartsPES(p) then
      [Meaningful(p.adaptation)] else []
  {
    assert (packets + [p])[..|packets|] == packets;
  }

  // ---- metadata that waits ----

  function EventFields(events: seq<Meta>): seq<Field>
    decreases |events|
  {
    if events == [] then [] else EventFields(events[..|events| - 1]) + Meaningful(events[|events| - 1].adaptation)
  }

  function PendingGroup(p: PendingMeta): seq<Field> {
    Meaningful(p.start) + EventFields(p.events)
  }

  function PendingGroups(pending: seq<PendingMeta>): (r: seq<seq<Field>>)
    ensures |r| == |pending|
  {
    seq(|pending|, i requires 0 <= i < |pending| => PendingGroup(pending[i]))
  }

  function PendingStarts(pending: seq<PendingMeta>): (r: seq<seq<Field>>)
    ensures |r| == |pending|
  {
    seq(|pending|, i requires 0 <= i < |pending| => Meaningful(pending[i].start))
  }

  // ---- a PES header comes out ----

  /** What the packetizer has been given by the events of a PES. */
  function EventsWritten(w: Written, events: seq<Meta>): (r: Written)
    requires WrittenOk(w)
    ensures WrittenOk(r)
    decreases |events|
  {
    if events == [] then w else AddField(EventsWritten(w, events[..|events| - 1]), events[|events| - 1].adaptation)
  }

  lemma {:induction false} EventsWrittenIs(w: Written, events: seq<Meta>)
    requires WrittenOk(w)
    ensures EventsWritten(w, events) == w.(fields := Extend(w.fields, Part(false, EventFields(events))))
    decreases |events|
  {
    if events == [] {
      ExtendNothing(w.fields);
    } else {
      var n := |events| - 1;
      EventsWrittenIs(w, events[..n]);
      ExtendTwice(w.fields, false, EventFields(events[..n]), Meaningful(events[n].adaptation));
    }
  }

  /** The field the new PES starts with: its own, or else the one that waits. */
  function StartField(waiting: Option<Field>, start: Option<Field>): Option<Field> {
    if Meaningful(start) != [] then start else waiting
  }

  /** All of PESHeader: start field, header, events. */
  function HeaderWritten(w: Written, waiting: Option<Field>, p: PendingMeta, header: seq<byte>): (r: Written)
    requires WrittenOk(w)
    ensures WrittenOk(r)
  {
    EventsWritten(AddUnit(AddField(w, p.start), StartField(waiting, p.start), header), p.events)
  }

  lemma OwnGroup(w: Written, p: PendingMeta, header: seq<byte>)
    requires WrittenOk(w)
    ensures HeaderWritten(w, None, p, header)
      == Written(w.units + [header], w.fields + [PendingGroup(p)], w.starts + [Meaningful(p.start)])
  {
    var w1 := AddField(w, p.start);
    var w2 := AddUnit(w1, StartField(None, p.start), header);
    if Meaningful(p.start) == [] {
      AddNothing(w, p.start);
    } else {
      var n := |w.fields| - 1;
      var last := w1.fields[n];
      assert last[..|last| - 1] == w.fields[n];
      assert w1.fields[..n] + [w.fields[n]] == w.fields;
    }
    assert w2.fields == w.fields + [Meaningful(p.start)];
    EventsWrittenIs(w2, p.events);
  }

  lemma HeaderUnits(w: Written, waiting: Option<Field>, p: PendingMeta, header: seq<byte>)
    requires WrittenOk(w)
    ensures HeaderWritten(w, waiting, p, header).units == w.units + [header]
  {
    EventsWrittenIs(AddUnit(AddField(w, p.start), StartField(waiting, p.start), header), p.events);
  }

  // ---- packets that start a PES ----

  predicate PusiHasPayload(p: Packet) {
    p.pusi ==> p.hasPayload
  }

  predicate AllPusi(packets: seq<Packet>) {
    forall i :: 0 <= i < |packets| ==> PusiHasPayload(packets[i])
  }

  lemma AllPusiSnoc(packets: seq<Packet>, p: Packet)
    ensures AllPusi(packets + [p]) <==> AllPusi(packets) && PusiHasPayload(p)
  {
    if AllPusi(packets + [p]) {
      assert (packets + [p])[|packets|] == p;
      forall i | 0 <= i < |packets| ensures PusiHasPayload(packets[i]) {
        assert (packets + [p])[i] == packets[i];
      }
    }
  }

  // ---- the pairing ----

  ghost predicate UnfoldPaired(k: int) { true }

  /** If every PUSI packet of the input has a payload: no field waits while no PES is open
    * (`calm`), and the fields written and those that wait are the fields of the input, PES by
    * PES, each PES starting with its own. Sealed. */
  ghost predicate Paired(w: Written, calm: bool, pending: seq<PendingMeta>, source: seq<Packet>) {
    forall k {:trigger UnfoldPaired(k)} :: UnfoldPaired(k) ==> AllPusi(source) ==>
      calm && w.fields + PendingGroups(pending) == SourceFields(source)
      && w.starts + PendingStarts(pending) == SourceStarts(source)
  }

  lemma NothingPaired()
    ensures Paired(NOTHING_WRITTEN, true, [], [])
  {
    assert SourceFields([]) == [[]] && PendingGroups([]) == [] && NOTHING_WRITTEN.fields == [[]];
    assert NOTHING_WRITTEN.fields + PendingGroups([]) == SourceFields([]);
  }

  lemma PendingSnoc(pending: seq<PendingMeta>, a: Option<Field>)
    ensures var q := PendingMeta(CloneField(a), []);
      && PendingGroups(pending + [q]) == PendingGroups(pending) + [Meaningful(a)]
      && PendingStarts(pending + [q]) == PendingStarts(pending) + [Meaningful(a)]
  {
    assert PendingGroup(PendingMeta(CloneField(a), [])) == Meaningful(a);
  }

  /** A packet that starts a PES: its field waits. */
  lemma PairedStart(w: Written, calm: bool, pending: seq<PendingMeta>, source: seq<Packet>, p: Packet)
    requires Paired(w, calm, pending, source) && StartsPES(p)
    ensures Paired(w, calm, pending + [PendingMeta(CloneField(p.adaptation), [])], source + [p])
  {
    assert UnfoldPaired(0);
    var field := Meaningful(p.adaptation);
    AllPusiSnoc(source, p);
    SourceFieldsSnoc(source, p);
    SourceStartsSnoc(source, p);
    PendingSnoc(pending, p.adaptation);
    ConcatAssociates(w.fields, PendingGroups(pending), [field]);
    ConcatAssociates(w.starts, PendingStarts(pending), [field]);
  }

  function WithEvent(pending: seq<PendingMeta>, e: Meta): (r: seq<PendingMeta>)
    requires pending != []
    ensures |r| == |pending|
  {
    var n := |pending| - 1;
    pending[n := pending[n].(events := pending[n].events + [e])]
  }

  // ---- fields that can be sent ----

  /** A field fits a packet; beside a payload it must leave room for a byte of it. */
  predicate Sendable(hasPayload: bool, a: Option<Field>) {
    Meaningful(a) != [] ==> BareSize(a.value) <= if hasPayload then BODY - 1 else BODY
  }

  predicate Carriable(p: Packet) {
    Sendable(p.hasPayload, p.adaptation)
  }

  /** The packet's field is kept for a PES that is still to begin. */
  predicate Postponed(pending: seq<PendingMeta>, p: Packet) {
    pending != [] && Meaningful(p.adaptation) != []
  }

  predicate EventsSendable(events: seq<Meta>) {
    forall i :: 0 <= i < |events| ==> Sendable(events[i].hasPayload, events[i].adaptation)
  }

  predicate Replayable(p: PendingMeta) {
    Sendable(true, p.start) && EventsSendable(p.events)
  }

  predicate AllReplayable(pending: seq<PendingMeta>) {
    forall i :: 0 <= i < |pending| ==> Replayable(pending[i])
  }

  predicate AllCarriable(packets: seq<Packet>) {
    forall i :: 0 <= i < |packets| ==> Carriable(packets[i])
  }

  ghost predicate UnfoldFitting(k: int) { true }

  /** A field that cannot be sent is among those that wait, or there is none. Sealed. */
  ghost predicate Fitting(pending: seq<PendingMeta>, source: seq<Packet>) {
    forall k {:trigger UnfoldFitting(k)} :: UnfoldFitting(k) ==> (AllReplayable(pending) <==> AllCarriable(source))
  }

  lemma AllCarriableSnoc(source: seq<Packet>, p: Packet)
    ensures AllCarriable(source + [p]) <==> AllCarriable(source) && Carriable(p)
  {
    if AllCarriable(source + [p]) {
      assert (source + [p])[|source|] == p;
      forall i | 0 <= i < |source| ensures Carriable(source[i]) {
        assert (source + [p])[i] == source[i];
      }
    }
  }

  lemma CloneSendable(hasPayload: bool, a: Option<Field>)
    ensures Sendable(hasPayload, CloneField(a)) == Sendable(hasPayload, a)
  {
  }

  lemma AllReplayableSnoc(pending: seq<PendingMeta>, p: PendingMeta)
    ensures AllReplayable(pending + [p]) <==> AllReplayable(pending) && Replayable(p)
  {
    if AllReplayable(pending + [p]) {
      assert (pending + [p])[|pending|] == p;
      forall i | 0 <= i < |pending| ensures Replayable(pending[i]) {
        assert (pending + [p])[i] == pending[i];
      }
    }
  }

  lemma EventsSendableSnoc(events: seq<Meta>, e: Meta)
    ensures EventsSendable(events + [e]) <==> EventsSendable(events) && Sendable(e.hasPayload, e.adaptation)
  {
    if EventsSendable(events + [e]) {
      assert (events + [e])[|events|] == e;
      forall i | 0 <= i < |events| ensures Sendable(events[i].hasPayload, events[i].adaptation) {
        assert (events + [e])[i] == events[i];
      }
    }
  }

  lemma FittingStart(pending: seq<PendingMeta>, source: seq<Packet>, p: Packet)
    requires Fitting(pending, source) && StartsPES(p)
    ensures Fitting(pending + [PendingMeta(CloneField(p.adaptation), [])], source + [p])
  {
    assert UnfoldFitting(0);
    AllCarriableSnoc(source, p);
    CloneSendable(true, p.adaptation);
    AllReplayableSnoc(pending, PendingMeta(CloneField(p.adaptation), []));
  }

  lemma FittingEvent(pending: seq<PendingMeta>, source: seq<Packet>, p: Packet)
    requires Fitting(pending, source) && pending != []
    ensures Fitting(WithEvent(pending, Meta(p.hasPayload, CloneField(p.adaptation))), source + [p])
  {
    assert UnfoldFitting(0);
    AllCarriableSnoc(source, p);
    CloneSendable(p.hasPayload, p.adaptation);
    WithEventReplayable(pending, Meta(p.hasPayload, CloneField(p.adaptation)));
  }

  lemma WithEventReplayable(pending: seq<PendingMeta>, e: Meta)
    requires pending != []
    ensures AllReplayable(WithEvent(pending, e)) <==> AllReplayable(pending) && Sendable(e.hasPayload, e.adaptation)
  {
    var n := |pending| - 1;
    var last := pending[n];
    EventsSendableSnoc(last.events, e);
    AllReplayableSnoc(pending[..n], last);
    AllReplayableSnoc(pending[..n], last.(events := last.events + [e]));
    assert pending == pending[..n] + [last];
    assert WithEvent(pending, e) == pending[..n] + [last.(events := last.events + [e])];
  }

  lemma FittingSame(pending: seq<PendingMeta>, source: seq<Packet>, p: Packet)
    requires Fitting(pending, source) && Carriable(p)
    ensures Fitting(pending, source + [p])
  {
    assert UnfoldFitting(0);
    AllCarriableSnoc(source, p);
  }

  lemma FittingHeader(pending: seq<PendingMeta>, source: seq<Packet>)
    requires Fitting(pending, source) && pending != []
    ensures Replayable(pending[0]) ==> Fitting(pending[1..], source)
    ensures AllCarriable(source) ==> Replayable(pending[0])
  {
    assert UnfoldFitting(0);
    if Replayable(pending[0]) && AllReplayable(pending[1..]) {
      forall i | 0 <= i < |pending| ensures Replayable(pending[i]) {
        if i > 0 {
          assert pending[i] == pending[1..][i - 1];
        }
      }
    }
  }

  lemma NothingFitting()
    ensures Fitting([], [])
  {
  }

  lemma EventAdded(pending: seq<PendingMeta>, e: Meta)
    requires pending != []
    ensures PendingGroups(WithEvent(pending, e)) ==
      Extend(PendingGroups(pending), Part(false, Meaningful(e.adaptation)))
    ensures PendingStarts(WithEvent(pending, e)) == PendingStarts(pending)
  {
    var p := pending[|pending| - 1];
    assert (p.events + [e])[..|p.events|] == p.events;
    ConcatAssociates(Meaningful(p.start), EventFields(p.events), Meaningful(e.adaptation));
  }

  lemma ExtendBehind<T>(a: seq<seq<T>>, b: seq<seq<T>>, p: Part<T>)
    requires b != [] && !p.start
    ensures a + Extend(b, p) == Extend(a + b, p)
  {
  }

  /** Another packet while a PES waits: its field waits with the last one. */
  lemma PairedEvent(w: Written, calm: bool, pending: seq<PendingMeta>, source: seq<Packet>, p: Packet)
    requires Paired(w, calm, pending, source) && !StartsPES(p) && pending != []
    ensures Paired(w, calm, WithEvent(pending, Meta(p.hasPayload, CloneField(p.adaptation))), source + [p])
  {
    assert UnfoldPaired(0);
    NoStart(source, p);
    EventAdded(pending, Meta(p.hasPayload, CloneField(p.adaptation)));
    ExtendBehind(w.fields, PendingGroups(pending), SourcePart(p));
  }

  /** A packet that does not start a PES adds to the last group. */
  lemma NoStart(source: seq<Packet>, p: Packet)
    requires !StartsPES(p)
    ensures AllPusi(source + [p]) ==> AllPusi(source)
    ensures SourceFields(source + [p]) == Extend(SourceFields(source), Part(false, Meaningful(p.adaptation)))
    ensures SourceStarts(source + [p]) == SourceStarts(source)
  {
    var nothing: seq<seq<Field>> := [];
    AllPusiSnoc(source, p);
    SourceFieldsSnoc(source, p);
    SourceStartsSnoc(source, p);
    assert SourceStarts(source) + nothing == SourceStarts(source);
  }

  /** Another packet while no PES waits: its field is written. */
  lemma PairedDirect(w: Written, calm: bool, later: bool, source: seq<Packet>, p: Packet)
    requires Paired(w, calm, [], source) && !StartsPES(p) && WrittenOk(w)
    requires AllPusi(source + [p]) && calm ==> later
    ensures Paired(AddField(w, CloneField(p.adaptation)), later, [], source + [p])
  {
    assert UnfoldPaired(0);
    var nothing: seq<seq<Field>> := [];
    NoStart(source, p);
    assert PendingGroups([]) == nothing && PendingStarts([]) == nothing;
    assert w.fields + nothing == w.fields;
    assert AddField(w, CloneField(p.adaptation)).fields + nothing == Extend(w.fields, SourcePart(p));
  }

  /** A packet without a field that says anything. */
  lemma PairedSilent(w: Written, calm: bool, pending: seq<PendingMeta>, source: seq<Packet>, p: Packet)
    requires Paired(w, calm, pending, source) && !StartsPES(p) && Meaningful(p.adaptation) == []
    ensures Paired(w, calm, pending, source + [p])
  {
    assert UnfoldPaired(0);
    NoStart(source, p);
    ExtendNothing(SourceFields(source));
  }

  lemma FirstBehind<T>(a: seq<T>, b: seq<T>)
    requires b != []
    ensures (a + [b[0]]) + b[1..] == a + b
  {
  }

  lemma FirstPending(pending: seq<PendingMeta>)
    requires pending != []
    ensures PendingGroups(pending[1..]) == PendingGroups(pending)[1..]
      && PendingGroups(pending)[0] == PendingGroup(pending[0])
    ensures PendingStarts(pending[1..]) == PendingStarts(pending)[1..]
      && PendingStarts(pending)[0] == Meaningful(pending[0].start)
  {
  }

  /** The oldest PES that waits is written; if no other PES is open, no field was waiting. */
  lemma PairedHeader(w: Written, waiting: Option<Field>, pending: seq<PendingMeta>, source: seq<Packet>,
    header: seq<byte>)
    requires Paired(w, waiting.None?, pending, source) && WrittenOk(w) && pending != []
    ensures Paired(HeaderWritten(w, waiting, pending[0], header), true, pending[1..], source)
  {
    assert UnfoldPaired(0);
    if waiting.None? {
      OwnGroup(w, pending[0], header);
      FirstPending(pending);
      FirstBehind(w.fields, PendingGroups(pending));
      FirstBehind(w.starts, PendingStarts(pending));
    }
  }

  /** Payload bytes do not matter to the pairing. */
  lemma PairedBytes(w: Written, calm: bool, pending: seq<PendingMeta>, source: seq<Packet>, data: seq<byte>)
    requires Paired(w, calm, pending, source) && WrittenOk(w)
    ensures Paired(AddBytes(w, data), calm, pending, source)
  {
    assert UnfoldPaired(0);
  }

  /** When every PES has been written, each field of the input is with its PES, in order, and
    * each PES starts with its own. */
  lemma DeliveredFields(pid: nat, cc: byte, packets: seq<Packet>, w: Written, calm: bool, source: seq<Packet>)
    requires Delivers(pid, cc, packets, w) && Paired(w, calm, [], source) && AllPusi(source)
    ensures Fields(packets) == SourceFields(source) && StartsKept(Starts(packets), SourceStarts(source))
  {
    assert UnfoldPaired(0);
    var nothing: seq<seq<Field>> := [];
    assert PendingGroups([]) == nothing && PendingStarts([]) == nothing;
    assert w.fields + nothing == w.fields && w.starts + nothing == w.starts;
  }
}
