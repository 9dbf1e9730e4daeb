/** ts/media_stream.go: collector, transformer and aligner in a row.
  *
  * The collector and the transformer call the next stage while they run; here their
  * calls are handed on right after, in the same order. Whenever a call fails the
  * whole program stops, so nothing is said about the state after that.
  */
module MediaStreams {
  import opened Bytes
  import opened Wrappers
  import opened PesQueues
  import opened PesRuns
  import PC = PesCollector
  import opened PesFraming
  import opened Packets
  import opened Carriage
  import opened Packetizer
  import opened PacketizerRun
  import opened AlignerModel
  import opened Aligner
  import M = MediaTransformers
  import opened StreamModel
  import opened PesShapes

  ghost predicate UnfoldFed(k: int) { true }
  ghost predicate UnfoldShown(k: int) { true }

  /** The transformer has received exactly these PES packets. Sealed. */
  ghost predicate Fed(m: M.MediaTransformer, pes: seq<PES>)
    reads M.Objects(m), M.Queue(m).observer
  {
    forall k {:trigger UnfoldFed(k)} :: UnfoldFed(k) ==>
      && M.Valid(m) && M.Stream(m) == Payloads(pes) && M.IsOpen(m) == PC.Open(pes)
      && M.Queue(m).received == InputsOf(M.CodecOf(m), pes)
  }

  /** The packetizer has received exactly these PES packets, and as many input PES wait
    * as have not begun to come out. Sealed. */
  ghost predicate Shown(a: OutputAligner, pes: seq<PES>)
    reads a, a.packetizer, a.packetizer.payload
  {
    forall k {:trigger UnfoldShown(k)} :: UnfoldShown(k) ==>
      && a.Valid() && a.packetizer.written.units == PESUnits(pes) && a.packetizer.pesOpen == PC.Open(pes)
      && |a.pendingPES| + |pes| == |SourceStarts(a.source)|
  }

  // ---- what every stage goes along with ----

  predicate AllBegin(pes: seq<PES>) {
    forall i :: 0 <= i < |pes| ==> BeginsPES(pes[i].header)
  }

  /** The transformer goes along with these PES packets. */
  ghost predicate Taken(c: M.Codec, pes: seq<PES>) {
    M.Takes(c, Payloads(pes)) && AllBegin(pes)
  }

  /** One packet after the other, the input is fine so far. */
  ghost predicate Acceptable(c: M.Codec, packets: seq<Packet>) {
    AllCarriable(packets) && Collect(packets).Ok? && M.Takes(c, Payloads(Collect(packets).state.out))
  }

  /** A whole input is fine: its fields can be sent, its PES packets are whole, and their
    * payload is a stream that the transformer accepts. */
  ghost predicate Fine(c: M.Codec, packets: seq<Packet>) {
    AllCarriable(packets) && Received(packets).Ok? && Accepted(c, Received(packets).state.out)
  }

  /** What is signalled after these packets. */
  ghost function SetupFor(c: M.Codec, packets: seq<Packet>): Option<seq<byte>> {
    if c.AvcCodec? then Some([])
    else if Collect(packets).Ok? && M.Takes(c, Payloads(Collect(packets).state.out)) then
      M.SetupOf(c, Payloads(Collect(packets).state.out))
    else Option.None
  }

  /** What has been signalled stays. */
  lemma SetupForStays(c: M.Codec, packets: seq<Packet>, p: Packet)
    requires c.AudioCodec? ==>
      Collect(packets + [p]).Ok? && M.Takes(c, Payloads(Collect(packets + [p]).state.out))
    requires SetupFor(c, packets).Some?
    ensures SetupFor(c, packets + [p]) == SetupFor(c, packets)
  {
    if c.AudioCodec? {
      CollectSnoc(packets, p);
      ConsumeGrows(Collect(packets).state, p.pusi, p.payload);
      var stream, later := Payloads(Collect(packets).state.out), Payloads(Collect(packets + [p]).state.out);
      assert later == stream + later[|stream|..];
      M.SetupStays(c, stream, later[|stream|..]);
    }
  }

  lemma HandleBegins(pes: seq<PES>, e: Event)
    requires Handle(pes, e).Some?
    ensures AllBegin(Handle(pes, e).value) ==> AllBegin(pes)
    ensures Payloads(pes) <= Payloads(Handle(pes, e).value)
  {
    var after := Handle(pes, e).value;
    match e {
      case Header(header) => NewPayload(pes, header, false);
      case Payload(data) => LastPayload(pes, data, false);
      case End => ClosedPayload(pes);
    }
    if AllBegin(after) {
      forall i | 0 <= i < |pes| ensures BeginsPES(pes[i].header) {
        assert after[i].header == pes[i].header;
      }
    }
  }

  lemma {:induction false} EventsBefore(events: seq<Event>, k: nat)
    requires Group(events).Some? && k <= |events|
    ensures Group(events[..k]).Some?
    ensures AllBegin(Group(events).value) ==> AllBegin(Group(events[..k]).value)
    ensures Payloads(Group(events[..k]).value) <= Payloads(Group(events).value)
    decreases |events|
  {
    if k == |events| {
      assert events[..k] == events;
    } else {
      var n := |events| - 1;
      HandleBegins(Group(events[..n]).value, events[n]);
      EventsBefore(events[..n], k);
      assert events[..n][..k] == events[..k];
    }
  }

  lemma TakenBefore(c: M.Codec, events: seq<Event>, k: nat)
    requires Group(events).Some? && k <= |events|
    ensures Group(events[..k]).Some?
    ensures Taken(c, Group(events).value) ==> Taken(c, Group(events[..k]).value)
  {
    EventsBefore(events, k);
    if M.Takes(c, Payloads(Group(events).value)) {
      TakesLess(c, Payloads(Group(events[..k]).value), Payloads(Group(events).value));
    }
  }

  lemma TakesLess(c: M.Codec, before: seq<byte>, all: seq<byte>)
    requires before <= all && M.Takes(c, all)
    ensures M.Takes(c, before)
  {
    assert all == before + all[|before|..];
    M.TakesLess(c, before, all[|before|..]);
  }

  /** What makes a whole input fine makes every beginning of it acceptable. */
  lemma FineBefore(c: M.Codec, packets: seq<Packet>, k: nat)
    requires Fine(c, packets) && k <= |packets|
    ensures Acceptable(c, packets[..k])
  {
    CollectGrows(packets, k);
    FinishGrows(Collect(packets).state);
    TakesPrefix(c, Payloads(Collect(packets[..k]).state.out), Payloads(Received(packets).state.out));
    forall i | 0 <= i < k ensures Carriable(packets[..k][i]) {
      assert packets[..k][i] == packets[i];
    }
  }

  /** What has been signalled is never signalled differently. */
  lemma SetupForLonger(c: M.Codec, packets: seq<Packet>, k: nat)
    requires Fine(c, packets) && k <= |packets| && SetupFor(c, packets[..k]).Some?
    ensures SetupFor(c, packets) == SetupFor(c, packets[..k])
  {
    hide Collect, Payloads, Received, M.Takes, M.SetupOf;
    if c.AudioCodec? {
      FineBefore(c, packets, |packets|);
      assert packets[..|packets|] == packets;
      CollectGrows(packets, k);
      var stream, later := Payloads(Collect(packets[..k]).state.out), Payloads(Collect(packets).state.out);
      assert later == stream + later[|stream|..];
      M.SetupStays(c, stream, later[|stream|..]);
    }
  }

  lemma TakesPrefix(c: M.Codec, before: seq<byte>, all: seq<byte>)
    requires before <= all && M.ImagesOf(c, all).Some?
    ensures M.Takes(c, before)
  {
    assert all == before + all[|before|..];
    M.TakesBeginning(c, before, all[|before|..]);
  }

  lemma FineIsTaken(c: M.Codec, packets: seq<Packet>)
    requires Received(packets).Ok?
    ensures AllBegin(Received(packets).state.out)
    ensures Fine(c, packets) ==> Taken(c, Received(packets).state.out)
  {
    var pes := Received(packets).state.out;
    ReceivedWhole(packets);
    forall i | 0 <= i < |pes| ensures BeginsPES(pes[i].header) {
      assert Whole(pes[i]);
    }
    if Fine(c, packets) {
      TakesPrefix(c, Payloads(pes), Payloads(pes));
    }
  }

  lemma AcceptableIsTaken(c: M.Codec, packets: seq<Packet>)
    requires Collect(packets).Ok?
    ensures Acceptable(c, packets) ==> Taken(c, Collect(packets).state.out)
  {
    CollectedHeaders(packets);
  }

  lemma TransformedBegin(c: M.Codec, pes: seq<PES>)
    requires Accepted(c, pes)
    ensures |Transformed(c, pes)| == |pes| && !PC.Open(Transformed(c, pes))
    ensures AllBegin(pes) ==> AllBegin(Transformed(c, pes))
  {
    var inputs, images := InputsOf(c, pes), M.ImagesOf(c, Payloads(pes)).value;
    forall i | 0 <= i < |pes|
      ensures Transformed(c, pes)[i].ended && Transformed(c, pes)[i].header == M.HeaderFor(c, pes[i].header)
    {
      ShareKeepsHeader(inputs, images, i);
    }
  }

  // ---- one event ----

  method FeedHeader(m: M.MediaTransformer, header: seq<byte>, ghost pes: seq<PES>) returns (ok: bool)
    requires Fed(m, pes) && !PC.Open(pes)
    modifies M.Objects(m)
    ensures |header| >= 6 ==> ok
    ensures ok ==> Fed(m, pes + [PES(header, [], false)])
  {
    assert UnfoldFed(0);
    NewInput(M.CodecOf(m), pes, header);
    ok := M.PESHeader(m, header);
  }

  method FeedPayload(m: M.MediaTransformer, data: seq<byte>, ghost pes: seq<PES>) returns (ok: bool)
    requires Fed(m, pes) && PC.Open(pes)
    modifies M.Objects(m)
    ensures ok <==> M.Takes(M.CodecOf(m), Payloads(pes) + data)
    ensures ok ==> Fed(m, PC.AppendLast(pes, data))
  {
    ghost var c, after := M.CodecOf(m), PC.AppendLast(pes, data);
    FedParts(m, pes);
    MoreInput(c, pes, data);
    ok := M.PESPayload(m, data);
    if ok {
      FedIs(m, c, after);
    }
  }

  lemma FedParts(m: M.MediaTransformer, pes: seq<PES>)
    requires Fed(m, pes)
    ensures M.Valid(m) && M.Stream(m) == Payloads(pes) && M.IsOpen(m) == PC.Open(pes)
    ensures M.Queue(m).received == InputsOf(M.CodecOf(m), pes)
  {
    assert UnfoldFed(0);
  }

  lemma FedIs(m: M.MediaTransformer, c: M.Codec, pes: seq<PES>)
    requires M.Valid(m) && M.CodecOf(m) == c && M.Stream(m) == Payloads(pes) && M.IsOpen(m) == PC.Open(pes)
    requires M.Queue(m).received == InputsOf(c, pes)
    ensures Fed(m, pes)
  {
  }

  method FeedEnd(m: M.MediaTransformer, ghost pes: seq<PES>) returns (ok: bool)
    requires Fed(m, pes) && PC.Open(pes)
    modifies M.Objects(m)
    ensures ok && Fed(m, PC.EndLast(pes))
  {
    assert UnfoldFed(0);
    EndedInput(M.CodecOf(m), pes);
    ok := M.PESEnd(m);
  }

  method Feed(m: M.MediaTransformer, e: Event, ghost pes: seq<PES>) returns (ok: bool)
    requires Fed(m, pes) && Handle(pes, e).Some?
    modifies M.Objects(m)
    ensures Taken(M.CodecOf(m), Handle(pes, e).value) ==> ok
    ensures ok ==> Fed(m, Handle(pes, e).value)
  {
    match e {
      case Header(header) =>
        assert Handle(pes, e).value[|pes|].header == header;
        ok := FeedHeader(m, header, pes);
      case Payload(data) =>
        LastPayload(pes, data, false);
        ok := FeedPayload(m, data, pes);
      case End => ok := FeedEnd(m, pes);
    }
  }

  method ShowHeader(a: OutputAligner, header: seq<byte>, ghost pes: seq<PES>) returns (ok: bool)
    requires Shown(a, pes) && !PC.Open(pes)
    modifies a`pendingPES, a`panicked, a.packetizer`cc, a.packetizer`payloadLen, a.packetizer`pusi,
      a.packetizer`adaptation,
      a.packetizer`packets, a.packetizer`written, a.packetizer`pesOpen, a.packetizer.payload
    ensures a.panicked <==> |pes| == |SourceStarts(a.source)|
    ensures AllCarriable(a.source) && BeginsPES(header) ==> ok || a.panicked
    ensures ok ==> Shown(a, pes + [PES(header, [], false)])
  {
    assert UnfoldShown(0);
    NewUnit(pes, header);
    ok := a.PESHeader(header);
  }

  method ShowPayload(a: OutputAligner, data: seq<byte>, ghost pes: seq<PES>) returns (ok: bool)
    requires Shown(a, pes) && PC.Open(pes)
    modifies a.packetizer`cc, a.packetizer`payloadLen, a.packetizer`pusi, a.packetizer`adaptation,
      a.packetizer`packets, a.packetizer`written, a.packetizer.payload
    ensures ok && Shown(a, PC.AppendLast(pes, data)) && !a.panicked
  {
    assert UnfoldShown(0);
    LastUnit(pes, data, false);
    ok := a.PESPayload(data);
  }

  method ShowEnd(a: OutputAligner, ghost pes: seq<PES>) returns (ok: bool)
    requires Shown(a, pes) && PC.Open(pes)
    modifies a.packetizer`cc, a.packetizer`payloadLen, a.packetizer`pusi, a.packetizer`adaptation,
      a.packetizer`packets, a.packetizer`pesOpen, a.packetizer.payload
    ensures ok && Shown(a, PC.EndLast(pes)) && !a.panicked
  {
    assert UnfoldShown(0);
    LastUnit(pes, [], true);
    assert pes[|pes| - 1].payload + [] == pes[|pes| - 1].payload;
    ExtendNothing(PESUnits(pes));
    ok := a.PESEnd();
  }

  method Show(a: OutputAligner, e: Event, ghost pes: seq<PES>) returns (ok: bool)
    requires Shown(a, pes) && Handle(pes, e).Some?
    modifies a`pendingPES, a`panicked, a.packetizer`cc, a.packetizer`payloadLen, a.packetizer`pusi,
      a.packetizer`adaptation,
      a.packetizer`packets, a.packetizer`written, a.packetizer`pesOpen, a.packetizer.payload
    ensures AllCarriable(a.source) && AllBegin(Handle(pes, e).value) ==> ok || a.panicked
    ensures a.panicked ==> |Handle(pes, e).value| > |SourceStarts(a.source)|
    ensures ok ==> Shown(a, Handle(pes, e).value)
  {
    match e {
      case Header(header) =>
        assert Handle(pes, e).value[|pes|].header == header;
        ok := ShowHeader(a, header, pes);
      case Payload(data) => ok := ShowPayload(a, data, pes);
      case End => ok := ShowEnd(a, pes);
    }
  }

  /** A packet is registered: if it starts a PES, one more waits. */
  method RegisterShown(a: OutputAligner, token: nat, p: Packet, ghost pes: seq<PES>) returns (ok: bool)
    requires Shown(a, pes) && a.Expected(p)
    modifies a`pendingPES, a`ccInitialized, a`tokens, a`source, a`registered, a.packetizer, a.packetizer.payload
    ensures Carriable(p) ==> ok
    ensures ok ==> Shown(a, pes) && a.source == old(a.source) + [p] && a.registered == old(a.registered) + [token]
    ensures ok ==> a.OpenTokens() == old(a.OpenTokens()) + [token]
  {
    assert UnfoldShown(0);
    SourceStartsSnoc(a.source, p);
    ok := a.RegisterInputPacket(token, p);
  }

  method AlignShown(a: OutputAligner, ghost pes: seq<PES>) returns (completed: seq<CompletedSlot>)
    requires Shown(a, pes)
    modifies a`tokens, a`pending, a`finished, a.packetizer`packets, a.packetizer`taken
    ensures Shown(a, pes) && a.finished == old(a.finished) + completed
    ensures SlotTokens(completed) + a.OpenTokens() == old(a.OpenTokens())
  {
    assert UnfoldShown(0);
    ghost var finished, open := a.finished, a.OpenTokens();
    a.TokensKept();
    completed := a.Align();
    a.TokensKept();
    HandedBack(finished, completed, open, a.OpenTokens(), a.registered);
  }

  /** Slots that are handed back are no longer open. */
  lemma HandedBack(finished: seq<CompletedSlot>, completed: seq<CompletedSlot>, open: seq<nat>, later: seq<nat>,
                   registered: seq<nat>)
    requires SlotTokens(finished) + open == registered
    requires SlotTokens(finished + completed) + later == registered
    ensures SlotTokens(completed) + later == open
  {
    var n := |finished|;
    assert SlotTokens(finished + completed) == SlotTokens(finished) + SlotTokens(completed);
    assert (SlotTokens(finished + completed) + later)[n..] == SlotTokens(completed) + later;
    assert registered[n..] == open;
  }

  lemma StillGoing(a: OutputAligner, pes: seq<PES>)
    requires Shown(a, pes)
    ensures !a.panicked && |pes| <= |SourceStarts(a.source)|
  {
    assert UnfoldShown(0);
  }

  // ---- all events since some point ----

  method FeedOne(m: M.MediaTransformer, events: seq<Event>, i: nat) returns (ok: bool)
    requires i < |events| && Group(events).Some? && Group(events[..i]).Some? && Fed(m, Group(events[..i]).value)
    modifies M.Objects(m)
    ensures Taken(M.CodecOf(m), Group(events).value) ==> ok
    ensures Group(events[..i + 1]).Some? && (ok ==> Fed(m, Group(events[..i + 1]).value))
  {
    GroupBefore(events, i);
    TakenBefore(M.CodecOf(m), events, i + 1);
    ok := Feed(m, events[i], Group(events[..i]).value);
  }

  method FeedAll(m: M.MediaTransformer, events: seq<Event>, from: nat) returns (ok: bool)
    requires from <= |events| && Group(events).Some?
    requires (GroupBefore(events, from); Fed(m, Group(events[..from]).value))
    modifies M.Objects(m)
    ensures Taken(M.CodecOf(m), Group(events).value) ==> ok
    ensures ok ==> Fed(m, Group(events).value)
  {
    ok := true;
    GroupBefore(events, from);
    for i := from to |events|
      invariant Group(events[..i]).Some? && Fed(m, Group(events[..i]).value)
    {
      ok := FeedOne(m, events, i);
      if !ok {
        return;
      }
    }
    assert events[..|events|] == events;
  }

  method ShowOne(a: OutputAligner, events: seq<Event>, i: nat, ghost fine: bool) returns (ok: bool)
    requires i < |events| && Group(events).Some? && Group(events[..i]).Some? && Shown(a, Group(events[..i]).value)
    requires fine ==> AllCarriable(a.source) && AllBegin(Group(events).value)
    modifies a`pendingPES, a`panicked, a.packetizer`cc, a.packetizer`payloadLen, a.packetizer`pusi,
      a.packetizer`adaptation,
      a.packetizer`packets, a.packetizer`written, a.packetizer`pesOpen, a.packetizer.payload
    ensures fine ==> ok || a.panicked
    ensures a.panicked ==> |Group(events).value| > |SourceStarts(a.source)|
    ensures Group(events[..i + 1]).Some? && (ok ==> Shown(a, Group(events[..i + 1]).value))
  {
    GroupBefore(events, i);
    GroupBefore(events, i + 1);
    EventsBefore(events, i + 1);
    ok := Show(a, events[i], Group(events[..i]).value);
  }

  method ShowAll(a: OutputAligner, events: seq<Event>, from: nat, ghost fine: bool) returns (ok: bool)
    requires from <= |events| && Group(events).Some?
    requires (GroupBefore(events, from); Shown(a, Group(events[..from]).value))
    requires fine ==> AllCarriable(a.source) && AllBegin(Group(events).value)
    modifies a`pendingPES, a`panicked, a.packetizer`cc, a.packetizer`payloadLen, a.packetizer`pusi,
      a.packetizer`adaptation,
      a.packetizer`packets, a.packetizer`written, a.packetizer`pesOpen, a.packetizer.payload
    ensures fine ==> ok || a.panicked
    ensures a.panicked ==> |Group(events).value| > |SourceStarts(a.source)|
    ensures ok ==> Shown(a, Group(events).value)
  {
    ok := true;
    GroupBefore(events, from);
    for i := from to |events|
      invariant Group(events[..i]).Some? && Shown(a, Group(events[..i]).value)
    {
      ok := ShowOne(a, events, i, fine);
      if !ok {
        return;
      }
    }
    assert events[..|events|] == events;
    StillGoing(a, Group(events).value);
  }

  // ---- what one stage does leaves the others alone ----

  method ShowBeside(a: OutputAligner, events: seq<Event>, from: nat, ghost fine: bool, ghost m: M.MediaTransformer,
                    ghost fed: seq<PES>) returns (ok: bool)
    requires fine ==> AllCarriable(a.source) && Group(events).Some? && AllBegin(Group(events).value)
    requires Fed(m, fed) && a !in M.Objects(m) && a.packetizer !in M.Objects(m) && a.packetizer.payload !in M.Objects(m)
    requires from <= |events| && Group(events).Some?
    requires (GroupBefore(events, from); Shown(a, Group(events[..from]).value))
    modifies a`pendingPES, a`panicked, a.packetizer`cc, a.packetizer`payloadLen, a.packetizer`pusi,
      a.packetizer`adaptation,
      a.packetizer`packets, a.packetizer`written, a.packetizer`pesOpen, a.packetizer.payload
    ensures fine ==> ok || a.panicked
    ensures a.panicked ==> |Group(events).value| > |SourceStarts(a.source)|
    ensures Fed(m, fed) && (ok ==> Shown(a, Group(events).value))
  {
    ok := ShowAll(a, events, from, fine);
  }

  method RegisterBeside(a: OutputAligner, token: nat, p: Packet, ghost pes: seq<PES>,
                        ghost m: M.MediaTransformer, ghost fed: seq<PES>) returns (ok: bool)
    requires Shown(a, pes) && a.Expected(p)
    requires Fed(m, fed) && a !in M.Objects(m) && a.packetizer !in M.Objects(m) && a.packetizer.payload !in M.Objects(m)
    modifies a`pendingPES, a`ccInitialized, a`tokens, a`source, a`registered, a.packetizer, a.packetizer.payload
    ensures Fed(m, fed) && (Carriable(p) ==> ok)
    ensures ok ==> Shown(a, pes) && a.source == old(a.source) + [p] && a.registered == old(a.registered) + [token]
    ensures ok ==> a.OpenTokens() == old(a.OpenTokens()) + [token]
  {
    ok := RegisterShown(a, token, p, pes);
  }

  method AlignBeside(a: OutputAligner, ghost pes: seq<PES>, ghost m: M.MediaTransformer, ghost fed: seq<PES>)
      returns (completed: seq<CompletedSlot>)
    requires Shown(a, pes) && Fed(m, fed) && a !in M.Objects(m) && a.packetizer !in M.Objects(m)
    modifies a`tokens, a`pending, a`finished, a.packetizer`packets, a.packetizer`taken
    ensures Shown(a, pes) && a.finished == old(a.finished) + completed && Fed(m, fed)
    ensures SlotTokens(completed) + a.OpenTokens() == old(a.OpenTokens())
  {
    completed := AlignShown(a, pes);
  }

  method CollectBeside(c: PC.PESCollector, p: Packet, ghost a: OutputAligner, ghost pes: seq<PES>,
                       ghost m: M.MediaTransformer, ghost fed: seq<PES>) returns (ok: bool)
    requires c.Valid() && Shown(a, pes) && Fed(m, fed) && c !in M.Objects(m)
    modifies c
    ensures Shown(a, pes) && Fed(m, fed)
    ensures ok <==> PC.Consume(old(c.Current()), p.pusi, p.payload).Ok?
    ensures ok ==> c.Valid() && PC.Consume(old(c.Current()), p.pusi, p.payload) == PC.Ok(c.Current())
    ensures old(c.events) <= c.events && (ok ==> Group(c.events) == Some(c.out))
  {
    var err := c.ConsumePacket(p.pusi, p.payload);
    ok := err == Option.None;
    if ok {
      c.TraceIs();
    }
  }

  method FinishBeside(c: PC.PESCollector, ghost a: OutputAligner, ghost pes: seq<PES>,
                      ghost m: M.MediaTransformer, ghost fed: seq<PES>) returns (ok: bool)
    requires c.Valid() && Shown(a, pes) && Fed(m, fed) && c !in M.Objects(m)
    modifies c
    ensures Shown(a, pes) && Fed(m, fed)
    ensures ok <==> PC.Finish(old(c.Current())).Ok?
    ensures ok ==> c.Valid() && PC.Finish(old(c.Current())) == PC.Ok(c.Current())
    ensures old(c.events) <= c.events && (ok ==> Group(c.events) == Some(c.out))
  {
    var err := c.Flush();
    ok := err == Option.None;
    if ok {
      c.TraceIs();
    }
  }

  /** What the transformer sends for these input PES packets, if it accepts their stream. */
  ghost function Transformed(c: M.Codec, pes: seq<PES>): seq<PES>
    requires M.ImagesOf(c, Payloads(pes)).Some?
    requires |M.ImagesOf(c, Payloads(pes)).value| == TotalSize(InputsOf(c, pes))
  {
    Share(InputsOf(c, pes), M.ImagesOf(c, Payloads(pes)).value)
  }

  ghost predicate Accepted(c: M.Codec, pes: seq<PES>) {
    && M.ImagesOf(c, Payloads(pes)).Some?
    && |M.ImagesOf(c, Payloads(pes)).value| == TotalSize(InputsOf(c, pes))
  }

  /** What has been signalled is what these PES packets have shown. */
  ghost predicate SetupShown(m: M.MediaTransformer, pes: seq<PES>)
    reads M.Self(m)
  {
    m.Audio? ==> M.Takes(M.CodecOf(m), Payloads(pes)) && M.Setup(m) == M.SetupOf(M.CodecOf(m), Payloads(pes))
  }

  method FlushCodec(m: M.MediaTransformer, ghost pes: seq<PES>) returns (ok: bool, sent: nat)
    requires Fed(m, pes) && M.Queue(m) in M.Objects(m) && M.Queue(m).observer !in M.Objects(m)
    modifies M.Objects(m), M.Queue(m).observer
    ensures !PC.Open(pes) && Accepted(M.CodecOf(m), pes) ==> ok
    ensures ok ==> SetupShown(m, pes)
    ensures ok ==> Accepted(M.CodecOf(m), pes) && Group(M.Queue(m).events) == Some(Transformed(M.CodecOf(m), pes))
    ensures ok ==> sent <= |M.Queue(m).events| && M.Queue(m).events[..sent] == old(M.Queue(m).events)
  {
    assert UnfoldFed(0);
    M.SetupIs(m);
    M.Observe(m);
    sent := |M.Queue(m).events|;
    ok := M.Flush(m);
    if ok {
      M.Queue(m).SeenBefore();
    }
  }

  method FlushBeside(m: M.MediaTransformer, ghost pes: seq<PES>, ghost a: OutputAligner, ghost shown: seq<PES>)
      returns (ok: bool, sent: nat)
    requires Fed(m, pes) && M.Queue(m) in M.Objects(m) && M.Queue(m).observer !in M.Objects(m)
    requires Shown(a, shown) && a !in M.Objects(m) && a.packetizer !in M.Objects(m)
      && a.packetizer.payload !in M.Objects(m)
    modifies M.Objects(m), M.Queue(m).observer
    ensures !PC.Open(pes) && Accepted(M.CodecOf(m), pes) ==> ok
    ensures ok ==> SetupShown(m, pes)
    ensures ok ==> Accepted(M.CodecOf(m), pes) && Group(M.Queue(m).events) == Some(Transformed(M.CodecOf(m), pes))
    ensures ok ==> sent <= |M.Queue(m).events| && M.Queue(m).events[..sent] == old(M.Queue(m).events)
    ensures Shown(a, shown)
  {
    ok, sent := FlushCodec(m, pes);
  }

  /** What the packets `out` owe to the input packets `source` and the PES packets that came
    * out of the transformer: the PES bytes, counters that run on from the input's first,
    * 188-byte packets, and the input's fields, each with its PES, in order, the PES starting
    * with its own. */
  ghost predicate Output(pid: nat, source: seq<Packet>, pes: seq<PES>, out: seq<Packet>) {
    && Units(out) == PESUnits(pes)
    && AllMade(pid, out) && (source != [] ==> Counted(FirstCounter(source[0]), out))
    && Fields(out) == SourceFields(source)
    && StartsKept(Starts(out), SourceStarts(source))
  }

  method FlushSink(a: OutputAligner, ghost pes: seq<PES>) returns (ok: bool, completed: seq<CompletedSlot>)
    requires Shown(a, pes) && |pes| == |SourceStarts(a.source)| && AllPusi(a.source)
    modifies a`tokens, a`pending, a`finished, a.packetizer`packets, a.packetizer`taken, a.packetizer`adaptation
    ensures ok <==> !PC.Open(pes)
    ensures AllCarriable(a.source)
    ensures ok ==> a.finished == old(a.finished) + completed && SlotTokens(a.finished) == a.registered
    ensures ok ==> SlotTokens(completed) == old(a.OpenTokens())
    ensures ok ==> Output(a.packetizer.pid, a.source, pes, SlotPackets(a.finished))
  {
    assert UnfoldShown(0);
    assert a.pendingPES == [];
    ghost var calm, finished, open, none: seq<nat> := a.Calm(), a.finished, a.OpenTokens(), [];
    a.TokensKept();
    ok, completed := a.Flush();
    if ok {
      assert SlotTokens(a.finished) + none == a.registered && SlotTokens(completed) + none == SlotTokens(completed);
      HandedBack(finished, completed, open, none, a.registered);
      CarriedIsDelivered(a.packetizer.pid, SlotPackets(a.finished), a.packetizer.written, a.packetizer.start,
        a.packetizer.cc);
      DeliveredFields(a.packetizer.pid, a.packetizer.start, SlotPackets(a.finished), a.packetizer.written, calm,
        a.source);
    }
  }

  /** The sink hands back its last slots. */
  method FlushSinkBeside(a: OutputAligner, ghost pes: seq<PES>, ghost m: M.MediaTransformer)
      returns (completed: seq<CompletedSlot>)
    requires Shown(a, pes) && |pes| == |SourceStarts(a.source)| && AllPusi(a.source) && !PC.Open(pes)
    requires a != M.Self(m) && a.packetizer != M.Self(m)
    modifies a`tokens, a`pending, a`finished, a.packetizer`packets, a.packetizer`taken, a.packetizer`adaptation
    ensures AllCarriable(a.source) && M.Setup(m) == old(M.Setup(m))
    ensures a.finished == old(a.finished) + completed && SlotTokens(a.finished) == a.registered
    ensures SlotTokens(completed) == old(a.OpenTokens())
    ensures Output(a.packetizer.pid, a.source, pes, SlotPackets(a.finished))
  {
    var ok;
    ok, completed := FlushSink(a, pes);
  }

  lemma IsFine(c: M.Codec, packets: seq<Packet>)
    requires AllCarriable(packets) && Received(packets).Ok? && Accepted(c, Received(packets).state.out)
    ensures Fine(c, packets)
  {
  }

  // ---- the stream ----

  class MediaStream {
    const pid: nat
    const collector: PC.PESCollector
    const transformer: M.MediaTransformer
    const sink: OutputAligner

    /** The setup data that has been signalled to the PMT, if it has. */
    function Setup(): Option<seq<byte>>
      reads M.Self(transformer)
    {
      M.Setup(transformer)
    }

    /** What one stage changes, another does not see. */
    ghost predicate Apart() {
      && sink !in M.Objects(transformer) && sink.packetizer !in M.Objects(transformer)
      && sink.packetizer.payload !in M.Objects(transformer) && collector !in M.Objects(transformer)
      && M.Queue(transformer).observer !in M.Objects(transformer)
      && M.Self(transformer) in M.Objects(transformer) && M.Queue(transformer) in M.Objects(transformer)
    }

    /** The collector has consumed every packet that was registered. */
    ghost predicate UpToDate()
      reads collector, sink`source
    {
      collector.Valid() && Collect(sink.source) == PC.Ok(collector.Current())
    }

    /** What came out of the transformer has been handed on. */
    ghost predicate Relayed()
      reads sink, sink.packetizer, sink.packetizer.payload, M.Queue(transformer)
    {
      Group(M.Queue(transformer).events).Some? && Shown(sink, Group(M.Queue(transformer).events).value)
    }

    ghost predicate Valid()
      reads collector, sink, sink.packetizer, sink.packetizer.payload
      reads M.Queue(transformer), M.Objects(transformer), M.Queue(transformer).observer
    {
      Apart() && UpToDate() && Fed(transformer, collector.out) && Relayed()
    }

    constructor (pid: nat, sink: OutputAligner, transformer: M.MediaTransformer)
      requires sink.Valid() && sink.source == [] && sink.packetizer.pid == pid
      requires M.Valid(transformer) && M.Stream(transformer) == [] && !M.IsOpen(transformer)
      requires M.Queue(transformer).received == [] && M.Queue(transformer).events == []
      requires sink !in M.Objects(transformer) && sink.packetizer !in M.Objects(transformer)
      requires sink.packetizer.payload !in M.Objects(transformer)
        && M.Queue(transformer).observer !in M.Objects(transformer)
      ensures Valid() && this.sink == sink && this.transformer == transformer && this.pid == pid && fresh(collector)
    {
      this.pid, this.sink, this.transformer := pid, sink, transformer;
      collector := new PC.PESCollector();
      new;
      Nothing();
    }

    lemma Nothing()
      requires sink.Valid() && sink.source == []
      requires M.Valid(transformer) && M.Stream(transformer) == [] && !M.IsOpen(transformer)
      requires M.Queue(transformer).received == [] && M.Queue(transformer).events == []
      ensures Collect([]) == PC.Ok(PC.State(PC.Idle, []))
      ensures Fed(transformer, []) && Group(M.Queue(transformer).events) == Some([]) && Shown(sink, [])
    {
      assert PacketChunks([]) == [];
      assert PESUnits([]) == [[]];
    }

    /** After a packet the PES packets that wait for their metadata are those the transformer
      * holds unstarted, and one more if the collector holds part of a header; the PUSI packets
      * without payload have left theirs out. */
    lemma WaitingMetadata()
      requires Valid()
      ensures |sink.pendingPES| + EmptyPusi(sink.source)
        == Waiting(M.Queue(transformer).pes) + if collector.Current().phase.InHeader? then 1 else 0
    {
      assert UnfoldFed(0) && UnfoldShown(0);
      M.QueueIsValid(transformer);
      M.Queue(transformer).BegunOrWaiting();
      StartsBegin(sink.source);
    }

    /** While a PES is under way and none waits for its metadata, that PES is open downstream. */
    lemma OpenWhileActive()
      requires Valid() && AllPusi(sink.source) && collector.active && sink.pendingPES == []
      ensures sink.packetizer.pesOpen
    {
      WaitingMetadata();
      NoEmptyPusi(sink.source);
      assert UnfoldFed(0) && UnfoldShown(0);
      M.QueueIsValid(transformer);
      M.Queue(transformer).OpenDownstream();
    }

    /** So no packet that reaches the stream gives the aligner a field outside a PES. */
    lemma Awaited(p: Packet)
      requires Valid() && Reaches(collector.Current(), p)
      ensures sink.Expected(p)
    {
      AllPusiSnoc(sink.source, p);
      if AllPusi(sink.source) && collector.active && sink.pendingPES == [] {
        OpenWhileActive();
      }
    }

    lemma Going()
      requires Valid()
      ensures !sink.panicked
    {
      StillGoing(sink, Group(M.Queue(transformer).events).value);
    }

    /** The slots handed back so far and those that are open are the slots registered. */
    lemma SlotsKept()
      requires Valid()
      ensures SlotTokens(sink.finished) + sink.OpenTokens() == sink.registered
    {
      assert UnfoldShown(0);
      sink.TokensKept();
    }

    /** The transformer has begun no more PES packets downstream than it has received. */
    lemma NoMoreThanReceived(pes: seq<PES>)
      requires Fed(transformer, pes)
      ensures M.Queue(transformer).observer.seen <= M.Queue(transformer).events
      ensures Group(M.Queue(transformer).events).Some? && |Group(M.Queue(transformer).events).value| <= |pes|
    {
      assert UnfoldFed(0);
      M.QueueIsValid(transformer);
      M.Queue(transformer).SeenBefore();
      M.Queue(transformer).BegunOrWaiting();
    }

    ghost method Look(pes: seq<PES>)
      requires Fed(transformer, pes) && Apart()
      modifies M.Queue(transformer).observer
      ensures Fed(transformer, pes) && M.Queue(transformer).observer.seen == M.Queue(transformer).events
    {
      assert UnfoldFed(0);
      M.Observe(transformer);
    }

    /** The headers that come out of the transformer are those that went in, but for their length. */
    lemma SentBegins(pes: seq<PES>)
      requires Fed(transformer, pes) && AllBegin(pes)
      ensures Group(M.Queue(transformer).events).Some? && AllBegin(Group(M.Queue(transformer).events).value)
    {
      assert UnfoldFed(0);
      M.QueueIsValid(transformer);
      M.Queue(transformer).BegunOrWaiting();
      var sent := Group(M.Queue(transformer).events).value;
      forall i | 0 <= i < |sent| ensures BeginsPES(sent[i].header) {
        M.Queue(transformer).BegunHeader(i);
        assert sent[i].header == M.HeaderFor(M.CodecOf(transformer), pes[i].header);
      }
    }

    /** Feed the transformer what the collector has sent since `from`. */
    method RelayCollected(from: nat, ghost fine: bool) returns (ok: bool, sent: nat)
      requires fine ==> Group(collector.events).Some? && Taken(M.CodecOf(transformer), Group(collector.events).value)
      requires Apart() && collector.Valid() && from <= |collector.events| && Group(collector.events).Some?
      requires (GroupBefore(collector.events, from); Fed(transformer, Group(collector.events[..from]).value))
      modifies M.Objects(transformer), M.Queue(transformer).observer
      ensures fine ==> ok
      ensures ok ==> Fed(transformer, Group(collector.events).value)
      ensures ok ==> sent <= |M.Queue(transformer).events|
      ensures ok ==> M.Queue(transformer).events[..sent] == old(M.Queue(transformer).events)
    {
      hide Taken, PC.PESCollector.Valid, M.Valid, M.Stream, InputsOf, Group;
      var events := collector.events;
      GroupBefore(events, from);
      Look(Group(events[..from]).value);
      sent := |M.Queue(transformer).events|;
      ok := FeedAll(transformer, events, from);
      if ok {
        NoMoreThanReceived(Group(events).value);
      }
    }

    /** Show the sink what the transformer has sent since `from`. */
    method RelaySent(from: nat, ghost fine: bool) returns (ok: bool)
      requires fine ==> AllCarriable(sink.source) && AllBegin(collector.out)
      requires Apart() && Fed(transformer, collector.out)
      requires from <= |M.Queue(transformer).events| && Group(M.Queue(transformer).events).Some?
      requires (GroupBefore(M.Queue(transformer).events, from); Shown(sink,
        Group(M.Queue(transformer).events[..from]).value))
      modifies sink`pendingPES, sink`panicked, sink.packetizer`cc, sink.packetizer`payloadLen, sink.packetizer`pusi,
        sink.packetizer`adaptation, sink.packetizer`packets, sink.packetizer`written, sink.packetizer`pesOpen,
        sink.packetizer.payload
      ensures fine ==> ok || sink.panicked
      ensures sink.panicked ==> |collector.out| > |SourceStarts(sink.source)|
      ensures Fed(transformer, collector.out) && (ok ==> Relayed())
    {
      NoMoreThanReceived(collector.out);
      if fine {
        SentBegins(collector.out);
      }
      ok := ShowBeside(sink, M.Queue(transformer).events, from, fine, transformer, collector.out);
    }

    /** Hand on everything new, from the collector to the transformer and from there to the sink. */
    method Relay(from: nat, ghost fine: bool) returns (ok: bool)
      requires fine ==> AllCarriable(sink.source) && Taken(M.CodecOf(transformer), collector.out)
      requires Apart() && collector.Valid() && from <= |collector.events|
        && Group(collector.events) == Some(collector.out)
      requires (GroupBefore(collector.events, from); Fed(transformer, Group(collector.events[..from]).value))
      requires Relayed()
      modifies M.Objects(transformer), M.Queue(transformer).observer, sink`pendingPES, sink`panicked,
        sink.packetizer`cc,
        sink.packetizer`payloadLen, sink.packetizer`pusi, sink.packetizer`adaptation, sink.packetizer`packets,
        sink.packetizer`written, sink.packetizer`pesOpen, sink.packetizer.payload
      ensures fine ==> ok || sink.panicked
      ensures sink.panicked ==> |collector.out| > |SourceStarts(sink.source)|
      ensures ok ==> Fed(transformer, collector.out) && Relayed()
    {
      var sent;
      StillGoing(sink, Group(M.Queue(transformer).events).value);
      ok, sent := RelayCollected(from, fine);
      if ok {
        NoMoreThanReceived(collector.out);
        ok := RelaySent(sent, fine);
      }
    }

    /** The packet is registered and goes through the collector. */
    method TakeIn(token: nat, p: Packet, ghost fine: bool) returns (ok: bool)
      requires Valid() && Reaches(collector.Current(), p)
      requires fine ==> Carriable(p) && Collect(sink.source + [p]).Ok?
      modifies sink`pendingPES, sink`ccInitialized, sink`tokens, sink`source, sink`registered, sink.packetizer,
        sink.packetizer.payload, collector
      ensures fine ==> ok
      ensures ok ==> sink.source == old(sink.source) + [p] && sink.registered == old(sink.registered) + [token]
      ensures ok ==> sink.OpenTokens() == old(sink.OpenTokens()) + [token]
      ensures ok ==> UpToDate() && Group(collector.events) == Some(collector.out)
      ensures Fed(transformer, old(collector.out)) && (ok ==> Relayed())
      ensures old(collector.events) <= collector.events && Group(old(collector.events)) == Some(old(collector.out))
    {
      collector.TraceIs();
      CollectSnoc(sink.source, p);
      Awaited(p);
      ghost var fed, shown := collector.out, Group(M.Queue(transformer).events).value;
      ok := RegisterBeside(sink, token, p, shown, transformer, fed);
      if ok {
        ok := CollectBeside(collector, p, sink, shown, transformer, fed);
      }
    }

    /** Hand on what the newest packet has brought. */
    method RelayNew(from: nat, ghost fine: bool) returns (ok: bool)
      requires fine ==> Acceptable(M.CodecOf(transformer), sink.source)
      requires Apart() && UpToDate() && from <= |collector.events| && Group(collector.events) == Some(collector.out)
      requires (GroupBefore(collector.events, from); Fed(transformer, Group(collector.events[..from]).value))
      requires Relayed()
      modifies M.Objects(transformer), M.Queue(transformer).observer, sink`pendingPES, sink`panicked,
        sink.packetizer`cc,
        sink.packetizer`payloadLen, sink.packetizer`pusi, sink.packetizer`adaptation, sink.packetizer`packets,
        sink.packetizer`written, sink.packetizer`pesOpen, sink.packetizer.payload
      ensures fine ==> ok || sink.panicked
      ensures sink.panicked ==> !AllPusi(sink.source)
      ensures ok ==> UpToDate() && Fed(transformer, collector.out) && Relayed()
    {
      AcceptableIsTaken(M.CodecOf(transformer), sink.source);
      MetadataForEach(sink.source);
      ok := Relay(from, fine);
    }

    /** The packet goes through the collector and the transformer as far as it can. */
    method Advance(token: nat, p: Packet) returns (ok: bool)
      requires Valid() && Reaches(collector.Current(), p)
      modifies M.Objects(transformer), M.Queue(transformer).observer, collector, sink`pendingPES, sink`ccInitialized,
        sink`tokens, sink`source, sink`registered, sink`panicked, sink.packetizer, sink.packetizer.payload
      ensures Acceptable(M.CodecOf(transformer), old(sink.source) + [p]) ==> ok || sink.panicked
      ensures sink.panicked ==> !AllPusi(old(sink.source) + [p])
      ensures ok ==> sink.OpenTokens() == old(sink.OpenTokens()) + [token]
      ensures ok ==> UpToDate() && Fed(transformer, collector.out) && Relayed()
      ensures ok ==> sink.source == old(sink.source) + [p] && sink.registered == old(sink.registered) + [token]
    {
      var from := |collector.events|;
      ghost var fine := Acceptable(M.CodecOf(transformer), sink.source + [p]);
      AllCarriableSnoc(sink.source, p);
      StillGoing(sink, Group(M.Queue(transformer).events).value);
      ok := TakeIn(token, p, fine);
      if ok {
        assert collector.events[..from] == old(collector.events);
        ok := RelayNew(from, fine);
      }
    }

    /** One input packet under the slot reserved for it, if the remuxer lets it through. A
      * packet of another PID is refused. Of an acceptable input nothing else is: PESHeader
      * finds metadata waiting unless some PUSI packet had no payload. After a call that
      * succeeds the input is acceptable too, unless a field that waits for its PES header
      * cannot be sent: that shows when the header comes. */
    method Consume(token: nat, p: Packet) returns (ok: bool, completed: seq<CompletedSlot>)
      requires Valid() && (p.pusi || !p.hasPayload || collector.active)
      modifies M.Objects(transformer), M.Queue(transformer).observer, collector, sink, sink.packetizer,
        sink.packetizer.payload
      ensures p.pid == pid && Acceptable(M.CodecOf(transformer), old(sink.source) + [p]) ==> ok || sink.panicked
      ensures sink.panicked ==> !AllPusi(old(sink.source) + [p])
      ensures ok ==> Valid() && p.pid == pid && sink.finished == old(sink.finished) + completed
      ensures ok ==> SlotTokens(completed) + sink.OpenTokens() == old(sink.OpenTokens()) + [token]
      ensures ok ==> sink.source == old(sink.source) + [p] && sink.registered == old(sink.registered) + [token]
      ensures ok ==> Collect(sink.source).Ok?
      ensures ok ==> M.Takes(M.CodecOf(transformer), Payloads(Collect(sink.source).state.out))
      ensures ok ==> (AllReplayable(sink.pendingPES) <==> Acceptable(M.CodecOf(transformer), sink.source))
    {
      completed := [];
      StillGoing(sink, Group(M.Queue(transformer).events).value);
      if p.pid != pid {
        return false, [];
      }
      ok := Advance(token, p);
      if ok {
        completed := AlignSink();
        SetupFollows();
        WrongWaits();
      }
    }

    /** The slots that are finished. */
    method AlignSink() returns (completed: seq<CompletedSlot>)
      requires Valid()
      modifies sink`tokens, sink`pending, sink`finished, sink.packetizer`packets, sink.packetizer`taken
      ensures Valid() && sink.finished == old(sink.finished) + completed
      ensures SlotTokens(completed) + sink.OpenTokens() == old(sink.OpenTokens())
    {
      completed := AlignBeside(sink, Group(M.Queue(transformer).events).value, transformer, collector.out);
    }

    /** The last PES is closed. */
    method CloseLast() returns (ok: bool)
      requires Valid()
      modifies collector
      ensures ok <==> Received(sink.source).Ok?
      ensures ok ==> collector.Valid() && Received(sink.source) == PC.Ok(collector.Current()) && !PC.Open(collector.out)
      ensures ok ==> Group(collector.events) == Some(collector.out) && |collector.out| >= |SourceStarts(sink.source)|
      ensures ok ==> (|collector.out| == |SourceStarts(sink.source)| <==> AllPusi(sink.source))
      ensures Fed(transformer, old(collector.out)) && Relayed() && old(collector.events) <= collector.events
    {
      MetadataForEach(sink.source);
      ok := FinishBeside(collector, sink, Group(M.Queue(transformer).events).value, transformer, collector.out);
      if ok {
        FinishBegins(Collect(sink.source).state);
      }
    }

    /** The last PES is closed and goes on to the transformer. */
    method DrainCollector(ghost fine: bool) returns (ok: bool)
      requires Valid() && (fine ==> Fine(M.CodecOf(transformer), sink.source))
      modifies M.Objects(transformer), M.Queue(transformer).observer, collector, sink`pendingPES, sink`panicked,
        sink.packetizer`cc, sink.packetizer`payloadLen, sink.packetizer`pusi, sink.packetizer`adaptation,
        sink.packetizer`packets, sink.packetizer`written, sink.packetizer`pesOpen, sink.packetizer.payload
      ensures fine ==> ok || sink.panicked
      ensures sink.panicked ==> !AllPusi(sink.source)
      ensures ok ==> Received(sink.source) == PC.Ok(collector.Current()) && !PC.Open(collector.out)
      ensures ok ==> (|collector.out| <= |SourceStarts(sink.source)| <==> AllPusi(sink.source))
      ensures ok ==> |collector.out| >= |SourceStarts(sink.source)|
      ensures ok ==> Fed(transformer, collector.out) && Relayed()
    {
      var from := |collector.events|;
      collector.TraceIs();
      StillGoing(sink, Group(M.Queue(transformer).events).value);
      ok := CloseLast();
      if ok {
        assert collector.events[..from] == old(collector.events);
        FineIsTaken(M.CodecOf(transformer), sink.source);
        ok := Relay(from, fine);
      }
    }

    /** The last PES is closed and everything that is still held back comes out. */
    method Drain() returns (ok: bool)
      requires Valid()
      modifies M.Objects(transformer), M.Queue(transformer).observer, collector, sink`pendingPES, sink`panicked,
        sink.packetizer`cc, sink.packetizer`payloadLen, sink.packetizer`pusi, sink.packetizer`adaptation,
        sink.packetizer`packets, sink.packetizer`written, sink.packetizer`pesOpen, sink.packetizer.payload
      ensures Fine(M.CodecOf(transformer), sink.source) ==> ok || sink.panicked
      ensures sink.panicked ==> !AllPusi(sink.source)
      ensures ok ==> Apart() && Received(sink.source).Ok?
      ensures ok ==> Accepted(M.CodecOf(transformer), Received(sink.source).state.out)
      ensures ok ==> AllPusi(sink.source) && Setup() == old(Setup())
      ensures ok ==> var sent := Transformed(M.CodecOf(transformer), Received(sink.source).state.out);
        Shown(sink, sent) && |sent| == |SourceStarts(sink.source)| && !PC.Open(sent)
    {
      ghost var fine := Fine(M.CodecOf(transformer), sink.source);
      SetupFollows();
      ok := DrainCollector(fine);
      if ok {
        FineIsTaken(M.CodecOf(transformer), sink.source);
        ok := DrainCodec(fine);
        if ok {
          SetupKept(sink.source);
        }
      }
    }

    /** Closing the last PES brings no payload, so it shows nothing more to signal. */
    lemma SetupKept(source: seq<Packet>)
      requires Received(source).Ok? && SetupShown(transformer, Received(source).state.out)
      ensures Setup() == SetupFor(M.CodecOf(transformer), source)
    {
      FinishGrows(Collect(source).state);
    }

    /** What has been signalled follows from the input so far. */
    lemma SetupFollows()
      requires Valid()
      ensures Setup() == SetupFor(M.CodecOf(transformer), sink.source)
      ensures Collect(sink.source).Ok? && M.Takes(M.CodecOf(transformer), Payloads(Collect(sink.source).state.out))
    {
      assert UnfoldFed(0);
      M.SetupIs(transformer);
    }

    /** What is wrong with the input so far is in a field that waits. */
    lemma WrongWaits()
      requires Valid()
      ensures AllReplayable(sink.pendingPES) <==> Acceptable(M.CodecOf(transformer), sink.source)
    {
      hide Collect, Payloads, M.Takes, AllCarriable, AllReplayable;
      SetupFollows();
      assert UnfoldShown(0);
      sink.MisfitsWait();
    }

    method DrainCodec(ghost fine: bool) returns (ok: bool)
      requires fine ==> !PC.Open(collector.out) && AllBegin(collector.out) && AllCarriable(sink.source)
      requires fine ==> Accepted(M.CodecOf(transformer), collector.out)
      requires Apart() && Fed(transformer, collector.out) && Relayed()
      modifies M.Objects(transformer), M.Queue(transformer).observer, sink`pendingPES, sink`panicked,
        sink.packetizer`cc, sink.packetizer`payloadLen, sink.packetizer`pusi, sink.packetizer`adaptation,
        sink.packetizer`packets, sink.packetizer`written, sink.packetizer`pesOpen, sink.packetizer.payload
      ensures fine ==> ok || sink.panicked
      ensures sink.panicked ==> |collector.out| > |SourceStarts(sink.source)|
      ensures ok ==> SetupShown(transformer, collector.out)
      ensures ok ==> Accepted(M.CodecOf(transformer), collector.out) && |collector.out| <= |SourceStarts(sink.source)|
      ensures ok ==> var sent := Transformed(M.CodecOf(transformer), collector.out);
        Shown(sink, sent) && |sent| == |collector.out| && !PC.Open(sent)
    {
      ghost var shown := Group(M.Queue(transformer).events).value;
      StillGoing(sink, shown);
      var sent;
      ok, sent := FlushBeside(transformer, collector.out, sink, shown);
      if ok {
        ok := ShowLast(sent, Transformed(M.CodecOf(transformer), collector.out), fine);
      }
    }

    /** Show the sink the last that the transformer sends. */
    method ShowLast(from: nat, ghost sent: seq<PES>, ghost fine: bool) returns (ok: bool)
      requires fine ==> AllBegin(collector.out) && AllCarriable(sink.source)
      requires Apart() && Accepted(M.CodecOf(transformer), collector.out) && SetupShown(transformer, collector.out)
      requires sent == Transformed(M.CodecOf(transformer), collector.out)
        && Group(M.Queue(transformer).events) == Some(sent)
      requires from <= |M.Queue(transformer).events|
      requires (GroupBefore(M.Queue(transformer).events, from); Shown(sink,
        Group(M.Queue(transformer).events[..from]).value))
      modifies sink`pendingPES, sink`panicked, sink.packetizer`cc, sink.packetizer`payloadLen, sink.packetizer`pusi,
        sink.packetizer`adaptation, sink.packetizer`packets, sink.packetizer`written, sink.packetizer`pesOpen,
        sink.packetizer.payload
      ensures fine ==> ok || sink.panicked
      ensures sink.panicked ==> |sent| > |SourceStarts(sink.source)|
      ensures |sent| == |collector.out| && !PC.Open(sent) && SetupShown(transformer, collector.out)
      ensures ok ==> Shown(sink, sent) && |sent| <= |SourceStarts(sink.source)|
    {
      TransformedBegin(M.CodecOf(transformer), collector.out);
      ok := ShowAll(sink, M.Queue(transformer).events, from, fine);
      if ok {
        StillGoing(sink, sent);
      }
    }

    /** The end of the input. Succeeds exactly if the whole input was fine and every PUSI
      * packet had a payload; with a fine input that is what decides whether the program ends in
      * PESHeader. The slots handed back since the beginning are those that were registered, in
      * order, and what they hold is the transform of the PES packets of the input. Nothing is
      * signalled. */
    method Flush() returns (ok: bool, completed: seq<CompletedSlot>)
      requires Valid()
      modifies M.Objects(transformer), M.Queue(transformer).observer, collector, sink, sink.packetizer,
        sink.packetizer.payload
      ensures ok <==> Fine(M.CodecOf(transformer), old(sink.source)) && AllPusi(old(sink.source))
      ensures sink.panicked ==> !AllPusi(old(sink.source))
      ensures Fine(M.CodecOf(transformer), old(sink.source)) ==> (sink.panicked <==> !AllPusi(old(sink.source)))
      ensures ok ==> sink.source == old(sink.source) && sink.registered == old(sink.registered)
      ensures ok ==> Setup() == old(Setup())
      ensures ok ==> sink.finished == old(sink.finished) + completed
      ensures ok ==> SlotTokens(sink.finished) == old(sink.registered)
      ensures ok ==> SlotTokens(completed) == old(sink.OpenTokens())
      ensures ok ==> var pes := Received(old(sink.source)).state.out;
        Output(sink.packetizer.pid, old(sink.source), Transformed(M.CodecOf(transformer), pes),
          SlotPackets(sink.finished))
    {
      hide Shown, Output, PC.Open, Collect, PESUnits, Units;
      completed := [];
      ok := Drain();
      if ok {
        completed := FlushSinkBeside(sink, Transformed(M.CodecOf(transformer), Received(sink.source).state.out),
          transformer);
        IsFine(M.CodecOf(transformer), sink.source);
      }
    }
  }
}
