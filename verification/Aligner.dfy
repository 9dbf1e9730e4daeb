/** ts/output.go: outputAligner, which pairs source metadata with regenerated PES and
  * regenerated packets with input slots.
  */
module Aligner {
  import opened Bytes
  import opened Wrappers
  import opened AdaptationField
  import opened Packets
  import opened Carriage
  import opened Packetizer
  import opened PacketizerRun
  import opened AlignerModel

  // ---- matching packets with slots ----

  /** One packet for each of the oldest slots; the last slot takes what is left over. */
  function Matched(tokens: seq<nat>, packets: seq<Packet>): (r: seq<CompletedSlot>)
    ensures |r| == if |tokens| <= |packets| then |tokens| else |packets|
    decreases |tokens|
  {
    if tokens == [] || packets == [] then []
    else if |tokens| == 1 then [CompletedSlot(tokens[0], packets)]
    else [CompletedSlot(tokens[0], packets[..1])] + Matched(tokens[1..], packets[1..])
  }

  lemma {:induction false} MatchedAt(tokens: seq<nat>, packets: seq<Packet>, i: nat)
    requires i < |Matched(tokens, packets)|
    ensures Matched(tokens, packets)[i]
      == CompletedSlot(tokens[i], if i == |tokens| - 1 then packets[i..] else [packets[i]])
    decreases |tokens|
  {
    if |tokens| > 1 && i > 0 {
      MatchedAt(tokens[1..], packets[1..], i - 1);
      assert packets[1..][i - 1..] == packets[i..];
    }
  }

  /** What align leaves: finished slots, the slot that may still grow, and unmatched slots. */
  datatype Alignment = Alignment(completed: seq<CompletedSlot>, pending: Option<CompletedSlot>, tokens: seq<nat>)

  function AsSlots(pending: Option<CompletedSlot>): seq<CompletedSlot> {
    if pending.Some? then [pending.value] else []
  }

  function Aligned(pending: Option<CompletedSlot>, tokens: seq<nat>, packets: seq<Packet>): Alignment {
    if pending.Some? && tokens == [] then
      Alignment([], Some(CompletedSlot(pending.value.token, pending.value.packets + packets)), [])
    else
      var m := Matched(tokens, packets);
      if m == [] then Alignment(AsSlots(pending), None, tokens)
      else Alignment(AsSlots(pending) + m[..|m| - 1], Some(m[|m| - 1]), tokens[|m|..])
  }

  /** Packet i is for the i-th open token, and the last token that gets one gets all that are left. The
    * slot that waited before is done, unless there is no other that could take packets; the newest
    * waits; tokens without a packet stay open. */
  lemma AlignedExactly(pending: Option<CompletedSlot>, tokens: seq<nat>, packets: seq<Packet>)
    ensures var r := Aligned(pending, tokens, packets);
      var n := if |tokens| <= |packets| then |tokens| else |packets|;
      var slots := r.completed + AsSlots(r.pending);
      if pending.Some? && tokens == [] then
        && r.completed == [] && r.tokens == [] && r.pending.Some?
        && r.pending.value == CompletedSlot(pending.value.token, pending.value.packets + packets)
      else
        && |slots| == |AsSlots(pending)| + n && (r.pending.Some? <==> n > 0) && r.tokens == tokens[n..]
        && (pending.Some? ==> slots[0] == pending.value)
        && forall i :: 0 <= i < n ==>
             slots[|AsSlots(pending)| + i] ==
               CompletedSlot(tokens[i], if i == n - 1 && n == |tokens| then packets[i..] else [packets[i]])
  {
    var m, r := Matched(tokens, packets), Aligned(pending, tokens, packets);
    if !(pending.Some? && tokens == []) {
      assert r.completed + AsSlots(r.pending) == AsSlots(pending) + m;
      forall i | 0 <= i < |m| ensures (AsSlots(pending) + m)[|AsSlots(pending)| + i] == m[i] {
      }
      forall i | 0 <= i < |m|
        ensures m[i] == CompletedSlot(tokens[i], if i == |m| - 1 && |m| == |tokens| then packets[i..] else [packets[i]])
      {
        MatchedAt(tokens, packets, i);
      }
    }
  }

  lemma {:induction false} SlotPacketsConcat(a: seq<CompletedSlot>, b: seq<CompletedSlot>)
    ensures SlotPackets(a + b) == SlotPackets(a) + SlotPackets(b)
    decreases |b|
  {
    if b == [] {
      assert a + b == a;
    } else {
      var n := |b| - 1;
      assert (a + b)[..|a| + n] == a + b[..n];
      SlotPacketsConcat(a, b[..n]);
      ConcatAssociates(SlotPackets(a), SlotPackets(b[..n]), b[n].packets);
    }
  }

  lemma OneSlot(slot: CompletedSlot)
    ensures SlotTokens([slot]) == [slot.token] && SlotPackets([slot]) == slot.packets
  {
    assert [slot][..0] == [];
  }

  lemma SlotBefore(slot: CompletedSlot, more: seq<CompletedSlot>)
    ensures SlotTokens([slot] + more) == [slot.token] + SlotTokens(more)
    ensures SlotPackets([slot] + more) == slot.packets + SlotPackets(more)
  {
    OneSlot(slot);
    SlotPacketsConcat([slot], more);
  }

  lemma {:induction false} MatchedKeeps(tokens: seq<nat>, packets: seq<Packet>)
    ensures SlotTokens(Matched(tokens, packets)) == tokens[..|Matched(tokens, packets)|]
    ensures tokens != [] ==> SlotPackets(Matched(tokens, packets)) == packets
    decreases |tokens|
  {
    if tokens != [] && packets != [] {
      if |tokens| == 1 {
        OneSlot(CompletedSlot(tokens[0], packets));
      } else {
        MatchedKeeps(tokens[1..], packets[1..]);
        OneMoreMatched(tokens, packets, Matched(tokens[1..], packets[1..]));
      }
    }
  }

  lemma OneMoreMatched(tokens: seq<nat>, packets: seq<Packet>, more: seq<CompletedSlot>)
    requires packets != [] && |more| < |tokens|
    requires SlotTokens(more) == tokens[1..][..|more|] && SlotPackets(more) == packets[1..]
    ensures var all := [CompletedSlot(tokens[0], packets[..1])] + more;
      SlotTokens(all) == tokens[..|all|] && SlotPackets(all) == packets
  {
    SlotBefore(CompletedSlot(tokens[0], packets[..1]), more);
    FrontGrows(tokens, |more|);
    FrontAndRest(packets);
  }

  lemma FrontGrows<T>(s: seq<T>, n: nat)
    requires n < |s|
    ensures [s[0]] + s[1..][..n] == s[..n + 1]
  {
  }

  lemma FrontAndRest<T>(s: seq<T>)
    requires s != []
    ensures s[..1] + s[1..] == s
  {
  }

  lemma SplitLast(m: seq<CompletedSlot>)
    requires m != []
    ensures m[..|m| - 1] + [m[|m| - 1]] == m
  {
  }

  /** Nothing is lost between what was waiting and `slots` with `rest` still unmatched. */
  ghost predicate Keeps(pending: Option<CompletedSlot>, tokens: seq<nat>, packets: seq<Packet>,
                        slots: seq<CompletedSlot>, rest: seq<nat>) {
    && SlotTokens(slots) + rest == SlotTokens(AsSlots(pending)) + tokens
    && (pending.Some? || tokens != [] ==> SlotPackets(slots) == SlotPackets(AsSlots(pending)) + packets)
  }

  lemma KeepsGrown(was: CompletedSlot, packets: seq<Packet>)
    ensures Keeps(Some(was), [], packets, [CompletedSlot(was.token, was.packets + packets)], [])
  {
    var grown := CompletedSlot(was.token, was.packets + packets);
    assert [grown][..0] == [] && [was][..0] == [];
  }

  lemma KeepsMatched(pending: Option<CompletedSlot>, tokens: seq<nat>, packets: seq<Packet>)
    requires !(pending.Some? && tokens == [])
    ensures var m := Matched(tokens, packets);
      Keeps(pending, tokens, packets, AsSlots(pending) + m, tokens[|m|..])
  {
    var m, before := Matched(tokens, packets), AsSlots(pending);
    MatchedKeeps(tokens, packets);
    SlotPacketsConcat(before, m);
    assert SlotTokens(before + m) == SlotTokens(before) + SlotTokens(m);
    TokensRejoined(SlotTokens(before), tokens, |m|);
  }

  lemma TokensRejoined(before: seq<nat>, tokens: seq<nat>, n: nat)
    requires n <= |tokens|
    ensures before + tokens[..n] + tokens[n..] == before + tokens
  {
  }

  lemma AlignedParts(pending: Option<CompletedSlot>, tokens: seq<nat>, packets: seq<Packet>)
    requires !(pending.Some? && tokens == [])
    ensures var r, m := Aligned(pending, tokens, packets), Matched(tokens, packets);
      && r.completed + AsSlots(r.pending) == AsSlots(pending) + m && r.tokens == tokens[|m|..]
      && (tokens != [] ==> r.pending.Some? || r.tokens != [])
  {
    var m := Matched(tokens, packets);
    if m == [] {
      assert AsSlots(pending) + [] == AsSlots(pending) && tokens[0..] == tokens;
    } else {
      SplitLast(m);
      ConcatAssociates(AsSlots(pending), m[..|m| - 1], [m[|m| - 1]]);
      assert tokens != [];
    }
  }

  /** Every slot and every packet is kept, in order, as long as there is a slot to take packets. */
  lemma AlignedKeeps(pending: Option<CompletedSlot>, tokens: seq<nat>, packets: seq<Packet>)
    ensures var r := Aligned(pending, tokens, packets);
      && Keeps(pending, tokens, packets, r.completed + AsSlots(r.pending), r.tokens)
      && (pending.Some? || tokens != [] ==> r.pending.Some? || r.tokens != [])
  {
    if pending.Some? && tokens == [] {
      KeepsGrown(pending.value, packets);
      var grown := CompletedSlot(pending.value.token, pending.value.packets + packets);
      assert [] + [grown] == [grown];
    } else {
      KeepsMatched(pending, tokens, packets);
      AlignedParts(pending, tokens, packets);
    }
  }

  ghost predicate UnfoldAccounted(k: int) { true }

  /** Slots registered and packets taken are all accounted for, in order. Sealed. */
  ghost predicate Accounted(finished: seq<CompletedSlot>, pending: Option<CompletedSlot>, tokens: seq<nat>,
                            registered: seq<nat>, taken: seq<Packet>) {
    forall k {:trigger UnfoldAccounted(k)} :: UnfoldAccounted(k) ==>
      && SlotTokens(finished + AsSlots(pending)) + tokens == registered
      && SlotPackets(finished + AsSlots(pending)) == taken
  }

  lemma TokensReplaced(finished: seq<CompletedSlot>, before: seq<CompletedSlot>, tokens: seq<nat>,
                       after: seq<CompletedSlot>, rest: seq<nat>)
    requires SlotTokens(after) + rest == SlotTokens(before) + tokens
    ensures SlotTokens(finished + after) + rest == SlotTokens(finished + before) + tokens
  {
    assert SlotTokens(finished + after) == SlotTokens(finished) + SlotTokens(after);
    assert SlotTokens(finished + before) == SlotTokens(finished) + SlotTokens(before);
    ConcatAssociates(SlotTokens(finished), SlotTokens(after), rest);
    ConcatAssociates(SlotTokens(finished), SlotTokens(before), tokens);
  }

  lemma PacketsReplaced(finished: seq<CompletedSlot>, before: seq<CompletedSlot>, after: seq<CompletedSlot>,
                        packets: seq<Packet>)
    requires SlotPackets(after) == SlotPackets(before) + packets
    ensures SlotPackets(finished + after) == SlotPackets(finished + before) + packets
  {
    SlotPacketsConcat(finished, after);
    SlotPacketsConcat(finished, before);
    ConcatAssociates(SlotPackets(finished), SlotPackets(before), packets);
  }

  lemma AccountedAlign(finished: seq<CompletedSlot>, pending: Option<CompletedSlot>, tokens: seq<nat>,
                       registered: seq<nat>, taken: seq<Packet>, packets: seq<Packet>)
    requires Accounted(finished, pending, tokens, registered, taken) && (pending.Some? || tokens != [])
    ensures var r := Aligned(pending, tokens, packets);
      && Accounted(finished + r.completed, r.pending, r.tokens, registered, taken + packets)
      && (r.pending.Some? || r.tokens != [])
  {
    assert UnfoldAccounted(0);
    AlignedKeeps(pending, tokens, packets);
    var r := Aligned(pending, tokens, packets);
    var before, after := AsSlots(pending), r.completed + AsSlots(r.pending);
    ConcatAssociates(finished, r.completed, AsSlots(r.pending));
    TokensReplaced(finished, before, tokens, after, r.tokens);
    PacketsReplaced(finished, before, after, packets);
  }

  lemma AccountedRegister(finished: seq<CompletedSlot>, pending: Option<CompletedSlot>, tokens: seq<nat>,
                          registered: seq<nat>, taken: seq<Packet>, token: nat)
    requires Accounted(finished, pending, tokens, registered, taken)
    ensures Accounted(finished, pending, tokens + [token], registered + [token], taken)
  {
    assert UnfoldAccounted(0);
    ConcatAssociates(SlotTokens(finished + AsSlots(pending)), tokens, [token]);
  }

  function EmptySlots(tokens: seq<nat>): (r: seq<CompletedSlot>)
    ensures |r| == |tokens|
  {
    seq(|tokens|, i requires 0 <= i < |tokens| => CompletedSlot(tokens[i], []))
  }

  lemma {:induction false} EmptySlotsCarryNothing(tokens: seq<nat>)
    ensures SlotPackets(EmptySlots(tokens)) == [] && SlotTokens(EmptySlots(tokens)) == tokens
    decreases |tokens|
  {
    if tokens != [] {
      var n := |tokens| - 1;
      EmptySlotsCarryNothing(tokens[..n]);
      assert EmptySlots(tokens)[..n] == EmptySlots(tokens[..n]);
    }
  }

  lemma AccountedFlush(finished: seq<CompletedSlot>, pending: Option<CompletedSlot>, tokens: seq<nat>,
                       registered: seq<nat>, taken: seq<Packet>)
    requires Accounted(finished, pending, tokens, registered, taken)
    ensures var all := finished + AsSlots(pending) + EmptySlots(tokens);
      && SlotTokens(all) == registered && SlotPackets(all) == taken
      && Accounted(all, None, [], registered, taken)
  {
    assert UnfoldAccounted(0);
    var slots := finished + AsSlots(pending);
    EmptySlotsCarryNothing(tokens);
    SlotPacketsConcat(slots, EmptySlots(tokens));
    assert SlotTokens(slots + EmptySlots(tokens)) == SlotTokens(slots) + SlotTokens(EmptySlots(tokens));
    var all, none := slots + EmptySlots(tokens), AsSlots(None);
    assert all + none == all;
  }

  lemma NothingAccounted()
    ensures Accounted([], None, [], [], [])
  {
  }

  // ---- the aligner ----

  /** The counter for the first payload packet: a packet without payload repeats the counter before. */
  function FirstCounter(p: Packet): byte {
    if p.hasPayload then p.cc % 16 else (p.cc % 16 + 1) % 16
  }

  class OutputAligner {
    const packetizer: TSPacketizer
    var pendingPES: seq<PendingMeta>
    var ccInitialized: bool
    var tokens: seq<nat>
    var pending: Option<CompletedSlot>

    /** PESHeader has found no metadata: an index out of range, which ends the program. */
    var panicked: bool

    /** Input packets and their slots, and slots handed back. */
    ghost var source: seq<Packet>
    ghost var registered: seq<nat>
    ghost var finished: seq<CompletedSlot>

    /** No field waits while no PES is open. */
    ghost predicate Calm()
      reads packetizer
    {
      packetizer.adaptation.None? || packetizer.pesOpen
    }

    ghost predicate Blank()
      reads this, packetizer
    {
      && registered == [] && pendingPES == [] && packetizer.taken + packetizer.packets == []
      && !packetizer.pesOpen && packetizer.adaptation.None? && packetizer.written == NOTHING_WRITTEN
      && !ccInitialized && pending.None? && tokens == []
    }

    /** Until the flush there is always a slot that can take packets. */
    ghost predicate Under(p: Packet)
      reads this, packetizer
    {
      ccInitialized && packetizer.start == FirstCounter(p) && (pending.Some? || tokens != [])
    }

    ghost predicate Valid()
      reads this, packetizer, packetizer.payload
    {
      && packetizer.Valid() && packetizer.mark == 0
      && !panicked && Paired(packetizer.written, Calm(), pendingPES, source) && Fitting(pendingPES, source)
      && Accounted(finished, pending, tokens, registered, packetizer.taken)
      && |registered| == |source|
      && (if source == [] then Blank() else Under(source[0]))
    }

    constructor (pid: nat)
      ensures Valid() && source == [] && finished == [] && packetizer.pid == pid
      ensures fresh(packetizer) && fresh(packetizer.payload)
    {
      packetizer := new TSPacketizer(pid);
      pendingPES, ccInitialized, tokens, pending := [], false, [], None;
      panicked, source, registered, finished := false, [], [], [];
      new;
      NothingPaired();
      NothingFitting();
      NothingAccounted();
    }

    /** Slots that have not been handed back: the one that may still grow, then the others. */
    ghost function OpenTokens(): seq<nat>
      reads this
    {
      SlotTokens(AsSlots(pending)) + tokens
    }

    /** Slots are handed back in the order in which they were registered. */
    lemma TokensKept()
      requires Valid()
      ensures SlotTokens(finished) + OpenTokens() == registered
    {
      assert UnfoldAccounted(0);
      assert SlotTokens(finished + AsSlots(pending)) == SlotTokens(finished) + SlotTokens(AsSlots(pending));
    }

    /** Of the fields registered those that cannot be sent are still waiting. */
    lemma MisfitsWait()
      requires Valid()
      ensures AllReplayable(pendingPES) <==> AllCarriable(source)
    {
      assert UnfoldFitting(0);
    }

    /** The remuxer gives a stream no packet with a payload outside a PES. */
    ghost predicate Expected(p: Packet)
      reads this, packetizer
    {
      AllPusi(source + [p]) && p.hasPayload && !p.pusi && pendingPES == [] ==> packetizer.pesOpen
    }

    /** registerInputPacket. A field that cannot be sent is refused now, unless it is kept for a PES
      * that is still to begin; then it is refused when that begins. */
    method RegisterInputPacket(token: nat, p: Packet) returns (ok: bool)
      requires Valid() && Expected(p)
      modifies this`pendingPES, this`ccInitialized, this`tokens, this`source, this`registered, packetizer,
        packetizer.payload
      ensures ok <==> StartsPES(p) || Postponed(old(pendingPES), p) || Carriable(p)
      ensures ok ==> Valid() && source == old(source) + [p] && registered == old(registered) + [token]
      ensures ok ==> OpenTokens() == old(OpenTokens()) + [token]
      ensures ok ==> |pendingPES| == |old(pendingPES)| + if StartsPES(p) then 1 else 0
      ensures ok ==> packetizer.pesOpen == old(packetizer.pesOpen) && packetizer.taken == old(packetizer.taken)
      ensures ok ==> packetizer.written.units == old(packetizer.written.units)
    {
      ok := TakeMetadata(p);
      if ok {
        ConcatAssociates(SlotTokens(AsSlots(pending)), tokens, [token]);
        AddSlot(token, p);
      }
    }

    method TakeMetadata(p: Packet) returns (ok: bool)
      requires Valid() && Expected(p)
      modifies this`pendingPES, this`ccInitialized, packetizer, packetizer.payload
      ensures ok <==> StartsPES(p) || Postponed(old(pendingPES), p) || Carriable(p)
      ensures ok ==> packetizer.Valid() && packetizer.mark == 0
      ensures ok ==> Paired(packetizer.written, Calm(), pendingPES, source + [p]) && Fitting(pendingPES, source + [p])
      ensures ok ==> ccInitialized && packetizer.start == FirstCounter(if source == [] then p else source[0])
      ensures ok ==> |pendingPES| == |old(pendingPES)| + if StartsPES(p) then 1 else 0
      ensures packetizer.pesOpen == old(packetizer.pesOpen) && packetizer.taken == old(packetizer.taken)
      ensures ok ==> packetizer.written.units == old(packetizer.written.units)
    {
      InitCounter(p);
      ok := NoteMetadata(p);
    }

    method AddSlot(token: nat, p: Packet)
      requires packetizer.Valid() && packetizer.mark == 0
      requires Paired(packetizer.written, Calm(), pendingPES, source + [p]) && Fitting(pendingPES, source + [p])
      requires Accounted(finished, pending, tokens, registered, packetizer.taken) && |registered| == |source|
        && !panicked
      requires ccInitialized && packetizer.start == FirstCounter(if source == [] then p else source[0])
      modifies this`tokens, this`source, this`registered
      ensures Valid() && source == old(source) + [p] && registered == old(registered) + [token]
      ensures tokens == old(tokens) + [token]
    {
      AccountedRegister(finished, pending, tokens, registered, packetizer.taken, token);
      tokens := tokens + [token];
      source, registered := source + [p], registered + [token];
    }

    /** Only the first packet of a PID sets the counter. */
    method InitCounter(p: Packet)
      requires packetizer.Valid() && packetizer.mark == 0
      requires !ccInitialized ==> packetizer.taken + packetizer.packets == []
      modifies this`ccInitialized, packetizer`cc, packetizer`start, packetizer`mark
      ensures packetizer.Valid() && packetizer.mark == 0 && ccInitialized
      ensures packetizer.start == if old(ccInitialized) then old(packetizer.start) else FirstCounter(p)
    {
      if !ccInitialized {
        var cc := p.cc % 16;
        if !p.hasPayload {
          cc := (cc + 1) % 16;
        }
        packetizer.SetContinuityCounter(cc);
        ccInitialized := true;
      }
    }

    /** Where the packet's field goes. */
    method NoteMetadata(p: Packet) returns (ok: bool)
      requires packetizer.Valid() && Paired(packetizer.written, Calm(), pendingPES, source)
        && Fitting(pendingPES, source)
      requires Expected(p)
      modifies this`pendingPES, packetizer`cc, packetizer`payloadLen, packetizer`pusi, packetizer`adaptation,
        packetizer`packets, packetizer`written, packetizer.payload
      ensures packetizer.Valid() && (ok <==> StartsPES(p) || Postponed(old(pendingPES), p) || Carriable(p))
      ensures ok ==> Paired(packetizer.written, Calm(), pendingPES, source + [p]) && Fitting(pendingPES, source + [p])
      ensures ok ==> |pendingPES| == |old(pendingPES)| + if StartsPES(p) then 1 else 0
      ensures ok ==> packetizer.written.units == old(packetizer.written.units)
    {
      var adaptation := CloneField(p.adaptation);
      if p.hasPayload && p.pusi {
        PairedStart(packetizer.written, Calm(), pendingPES, source, p);
        FittingStart(pendingPES, source, p);
        pendingPES := pendingPES + [PendingMeta(adaptation, [])];
        return true;
      }
      if pendingPES != [] && adaptation.Some? {
        PairedEvent(packetizer.written, Calm(), pendingPES, source, p);
        FittingEvent(pendingPES, source, p);
        pendingPES := WithEvent(pendingPES, Meta(p.hasPayload, adaptation));
        return true;
      }
      CloneSendable(p.hasPayload, p.adaptation);
      if Carriable(p) {
        FittingSame(pendingPES, source, p);
      }
      ghost var w, calm := packetizer.written, Calm();
      if !p.hasPayload {
        ok := packetizer.WriteAdaptationOnly(adaptation);
      } else {
        ok := packetizer.SetNextPacketAdaptationField(adaptation);
      }
      if pendingPES != [] {
        PairedSilent(w, calm, pendingPES, source, p);
      } else {
        PairedDirect(w, calm, Calm(), source, p);
      }
    }

    /** Replay what arrived with this PES, in arrival order. */
    method Replay(events: seq<Meta>) returns (ok: bool)
      requires packetizer.Valid() && packetizer.pesOpen
      modifies packetizer`cc, packetizer`payloadLen, packetizer`pusi, packetizer`adaptation, packetizer`packets,
        packetizer`written, packetizer.payload
      ensures packetizer.Valid()
      ensures ok <==> EventsSendable(events)
      ensures ok ==> packetizer.written == EventsWritten(old(packetizer.written), events)
    {
      for i := 0 to |events|
        invariant packetizer.Valid() && EventsSendable(events[..i])
        invariant packetizer.written == EventsWritten(old(packetizer.written), events[..i])
      {
        assert events[..i + 1][..i] == events[..i];
        assert events[..i + 1] == events[..i] + [events[i]];
        EventsSendableSnoc(events[..i], events[i]);
        if !events[i].hasPayload {
          ok := packetizer.WriteAdaptationOnly(events[i].adaptation);
        } else {
          ok := packetizer.SetNextPacketAdaptationField(events[i].adaptation);
        }
        if !ok {
          return;
        }
      }
      assert events[..|events|] == events;
      return true;
    }

    /** The start field and the header of a PES, then its events. */
    method WriteHeader(p: PendingMeta, header: seq<byte>) returns (ok: bool, retry: bool)
      requires packetizer.Valid()
      modifies packetizer`cc, packetizer`payloadLen, packetizer`pusi, packetizer`adaptation, packetizer`packets,
        packetizer`written, packetizer`pesOpen, packetizer.payload
      ensures packetizer.Valid()
      ensures ok <==> Replayable(p) && !old(packetizer.pesOpen) && BeginsPES(header)
      ensures ok ==> packetizer.pesOpen
      ensures ok ==> packetizer.written == HeaderWritten(old(packetizer.written), old(packetizer.adaptation), p, header)
      ensures retry ==> !ok && packetizer.written == old(packetizer.written)
    {
      retry := false;
      ok := packetizer.SetNextPacketAdaptationField(p.start);
      if !ok {
        retry := true;
        return;
      }
      ok := packetizer.BeginPES(header);
      if ok {
        ok := Replay(p.events);
      }
    }

    /** WriteHeader for the oldest PES that waits: the pairing goes on without it. */
    method WriteOldest(p: PendingMeta, header: seq<byte>, ghost queue: seq<PendingMeta>) returns (ok: bool, retry: bool)
      requires packetizer.Valid() && queue != [] && queue[0] == p && Paired(packetizer.written, Calm(), queue, source)
      modifies packetizer`cc, packetizer`payloadLen, packetizer`pusi, packetizer`adaptation, packetizer`packets,
        packetizer`written, packetizer`pesOpen, packetizer.payload
      ensures packetizer.Valid()
      ensures ok <==> Replayable(p) && !old(packetizer.pesOpen) && BeginsPES(header)
      ensures ok ==> packetizer.pesOpen && !retry
      ensures ok ==> Paired(packetizer.written, Calm(), queue[1..], source)
      ensures ok ==> packetizer.written.units == old(packetizer.written.units) + [header]
    {
      ghost var w, waiting := packetizer.written, packetizer.adaptation;
      if !packetizer.pesOpen {
        PairedHeader(w, waiting, queue, source, header);
      }
      HeaderUnits(w, waiting, p, header);
      ok, retry := WriteHeader(p, header);
    }

    /** The oldest source PES begins to come out. Without metadata for it this ends the
      * program; it fails exactly if a PES is open, the header is malformed or a field of this
      * PES cannot be sent. If that is the first, the PES stays in line. */
    method PESHeader(header: seq<byte>) returns (ok: bool)
      requires Valid()
      modifies this`pendingPES, this`panicked, packetizer`cc, packetizer`payloadLen, packetizer`pusi,
        packetizer`adaptation,
        packetizer`packets, packetizer`written, packetizer`pesOpen, packetizer.payload
      ensures panicked <==> old(pendingPES) == []
      ensures ok <==> !panicked && Replayable(old(pendingPES)[0]) && !old(packetizer.pesOpen) && BeginsPES(header)
      ensures AllCarriable(source) && !panicked ==> Replayable(old(pendingPES)[0])
      ensures ok ==> Valid() && pendingPES == old(pendingPES)[1..] && packetizer.pesOpen && !old(packetizer.pesOpen)
      ensures ok ==> packetizer.written.units == old(packetizer.written.units) + [header]
    {
      if pendingPES == [] {
        panicked := true;
        return false;
      }
      var first := pendingPES[0];
      ghost var queue := pendingPES;
      FittingHeader(pendingPES, source);
      pendingPES := pendingPES[1..];
      var retry;
      ok, retry := WriteOldest(first, header, queue);
      if retry {
        pendingPES := [first] + pendingPES;
      }
    }

    method PESPayload(data: seq<byte>) returns (ok: bool)
      requires Valid()
      modifies packetizer`cc, packetizer`payloadLen, packetizer`pusi, packetizer`adaptation, packetizer`packets,
        packetizer`written, packetizer.payload
      ensures Valid() && ok == packetizer.pesOpen
      ensures ok ==> packetizer.written.units == Extend(old(packetizer.written.units), Part(false, data))
    {
      PairedBytes(packetizer.written, Calm(), pendingPES, source, data);
      ok := packetizer.WritePESPayload(data);
    }

    method PESEnd() returns (ok: bool)
      requires Valid()
      modifies packetizer`cc, packetizer`payloadLen, packetizer`pusi, packetizer`adaptation, packetizer`packets,
        packetizer`pesOpen, packetizer.payload
      ensures Valid() && ok == old(packetizer.pesOpen) && (ok ==> !packetizer.pesOpen)
    {
      ok := packetizer.EndPES();
    }

    /** The loop of align: one packet for each of the oldest slots. */
    method Match(packets: seq<Packet>, before: seq<CompletedSlot>) returns (completed: seq<CompletedSlot>, count: nat)
      requires packets != [] && tokens != []
      ensures completed == before + Matched(tokens, packets) && count == |Matched(tokens, packets)|
    {
      count := if |packets| <= |tokens| then |packets| else |tokens|;
      completed := before;
      ghost var m := Matched(tokens, packets);
      for i := 0 to count
        invariant completed == before + m[..i]
      {
        var slotPackets := [packets[i]];
        if |packets| > count && i == count - 1 {
          slotPackets := slotPackets + packets[count..];
        }
        MatchedAt(tokens, packets, i);
        assert packets[i..] == [packets[i]] + packets[i + 1..];
        assert slotPackets == m[i].packets;
        completed := completed + [CompletedSlot(tokens[i], slotPackets)];
        ConcatAssociates(before, m[..i], [m[i]]);
        assert m[..i + 1] == m[..i] + [m[i]];
      }
      assert m[..count] == m;
    }

    /** align, apart from TakePackets. */
    method Assign(packets: seq<Packet>) returns (completed: seq<CompletedSlot>)
      requires pending.Some? || tokens != [] || packets == []
      modifies this`tokens, this`pending
      ensures Alignment(completed, pending, tokens) == Aligned(old(pending), old(tokens), packets)
    {
      completed := [];
      if pending.Some? {
        if tokens == [] {
          pending := Some(CompletedSlot(pending.value.token, pending.value.packets + packets));
          return;
        }
        completed := [pending.value];
        pending := None;
      }
      if packets == [] {
        return;
      }
      var count;
      completed, count := Match(packets, completed);
      tokens := tokens[count..];
      pending := Some(completed[|completed| - 1]);
      completed := completed[..|completed| - 1];
    }

    /** Packets are never dropped: while there are any, a slot can take them. */
    method Align() returns (completed: seq<CompletedSlot>)
      requires Valid()
      modifies this`tokens, this`pending, this`finished, packetizer`packets, packetizer`taken
      ensures Valid() && finished == old(finished) + completed && packetizer.packets == []
      ensures Alignment(completed, pending, tokens) == Aligned(old(pending), old(tokens), old(packetizer.packets))
    {
      ghost var before, waiting, taken := pending, tokens, packetizer.taken;
      var packets := packetizer.TakePackets();
      completed := Assign(packets);
      if source != [] {
        AccountedAlign(finished, before, waiting, registered, taken, packets);
      }
      finished := finished + completed;
    }

    /** The tail of flush: the slot that may still grow, then the unmatched ones. */
    method HandBack(aligned: seq<CompletedSlot>) returns (completed: seq<CompletedSlot>)
      modifies this`tokens, this`pending
      ensures completed == aligned + AsSlots(old(pending)) + EmptySlots(old(tokens))
      ensures tokens == [] && pending.None?
    {
      completed := aligned;
      if pending.Some? {
        completed := completed + [pending.value];
        pending := None;
      }
      ghost var start := completed;
      assert start == aligned + AsSlots(old(pending));
      for i := 0 to |tokens|
        invariant tokens == old(tokens) && completed == start + EmptySlots(tokens[..i]) && pending.None?
      {
        ConcatAssociates(start, EmptySlots(tokens[..i]), [CompletedSlot(tokens[i], [])]);
        assert EmptySlots(tokens[..i + 1]) == EmptySlots(tokens[..i]) + [CompletedSlot(tokens[i], [])];
        completed := completed + [CompletedSlot(tokens[i], [])];
      }
      assert tokens[..|tokens|] == tokens;
      tokens := [];
    }

    /** The last packet of the packetizer, and a last alignment. */
    method LastAlign() returns (completed: seq<CompletedSlot>)
      requires Valid() && !packetizer.pesOpen
      modifies this`tokens, this`pending, this`finished, packetizer`packets, packetizer`taken, packetizer`adaptation
      ensures finished == old(finished) + completed
      ensures Accounted(finished, pending, tokens, registered, packetizer.taken)
      ensures Carries(packetizer.taken, NOTHING, packetizer.written)
      ensures Issued(packetizer.pid, packetizer.taken, packetizer.start, 0, packetizer.cc)
    {
      var ok := packetizer.Flush();
      completed := Align();
      packetizer.TakenIsAll();
    }

    /** Succeeds exactly when no PES is open. Then every slot registered has been handed back
      * once, in order, and together they hold every packet that was made. */
    method Flush() returns (ok: bool, completed: seq<CompletedSlot>)
      requires Valid()
      modifies this`tokens, this`pending, this`finished, packetizer`packets, packetizer`taken, packetizer`adaptation
      ensures ok == !packetizer.pesOpen
      ensures ok ==> finished == old(finished) + completed && tokens == [] && pending.None?
      ensures pendingPES == [] ==> AllCarriable(source)
      ensures ok ==> SlotTokens(finished) == registered
      ensures ok ==> Carries(SlotPackets(finished), NOTHING, packetizer.written)
      ensures ok ==> Issued(packetizer.pid, SlotPackets(finished), packetizer.start, 0, packetizer.cc)
    {
      completed := [];
      assert UnfoldFitting(0);
      ok := !packetizer.pesOpen;
      if !ok {
        return;
      }
      completed := LastAlign();
      AccountedFlush(finished, pending, tokens, registered, packetizer.taken);
      Rest(old(finished), completed, AsSlots(pending), EmptySlots(tokens));
      ghost var all := finished + AsSlots(pending) + EmptySlots(tokens);
      completed := HandBack(completed);
      finished := all;
    }
  }

  lemma Rest(a: seq<CompletedSlot>, b: seq<CompletedSlot>, c: seq<CompletedSlot>, d: seq<CompletedSlot>)
    ensures a + b + c + d == a + (b + c + d)
  {
  }
}
