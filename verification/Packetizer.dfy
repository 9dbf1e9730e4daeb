/** ts/internal/mux/ts_packetizer.go: one PID's PES byte stream into transport packets.
  *
  * Every error the source can return is kept as `ok`, with the exact condition; the
  * errors of flushPayloadPacket and of the full-packet branch cannot happen.
  */
module Packetizer {
  import opened Bytes
  import opened Wrappers
  import opened PesCollector
  import opened AdaptationField
  import opened Packets
  import opened Carriage

  /** payloadCapacity: negative where the source returns its error. */
  function Capacity(a: Option<Field>): int {
    if a.Some? then BODY - BareSize(a.value) else BODY
  }

  /** The packet that is being put together, as if it had been sent. */
  datatype Pending = Pending(pusi: bool, payload: seq<byte>, adaptation: Option<Field>)

  const NOTHING := Pending(false, [], None)

  /** What has been written: the bytes of each PES, the fields accepted with each PES (the
    * first of each list precedes all PES), and the field that waited when each PES began. */
  datatype Written = Written(units: seq<seq<byte>>, fields: seq<seq<Field>>, starts: seq<seq<Field>>)

  const NOTHING_WRITTEN := Written([[]], [[]], [])

  predicate WrittenOk(w: Written) {
    w.units != [] && w.fields != []
  }

  function AddBytes(w: Written, data: seq<byte>): (r: Written)
    requires WrittenOk(w)
    ensures WrittenOk(r)
  {
    w.(units := Extend(w.units, Part(false, data)))
  }

  function AddField(w: Written, f: Option<Field>): (r: Written)
    requires WrittenOk(w)
    ensures WrittenOk(r)
  {
    w.(fields := Extend(w.fields, Part(false, Meaningful(f))))
  }

  /** A waiting field travels with the PES that begins now, as its first. */
  function AddUnit(w: Written, waiting: Option<Field>, header: seq<byte>): (r: Written)
    requires WrittenOk(w)
    ensures WrittenOk(r)
  {
    var n := |w.fields| - 1;
    var k := |w.fields[n]|;
    var fields := if Meaningful(waiting) == [] || k == 0 then w.fields + [[]]
                  else w.fields[..n] + [w.fields[n][..k - 1]] + [Meaningful(waiting)];
    Written(w.units + [header], fields, w.starts + [Meaningful(waiting)])
  }

  ghost predicate UnfoldCarries(k: int) { true }

  /** What packets and the pending one carry, against what was written. Sealed: the
    * lemmas below open it. */
  ghost predicate Carries(packets: seq<Packet>, p: Pending, w: Written) {
    forall k {:trigger UnfoldCarries(k)} :: UnfoldCarries(k) ==>
      && Extend(Units(packets), Part(p.pusi, p.payload)) == w.units
      && Extend(Fields(packets), Part(p.pusi, Meaningful(p.adaptation))) == w.fields
      && StartsKept(StartsWith(packets, p), w.starts)
  }

  function StartsWith(packets: seq<Packet>, p: Pending): seq<seq<Field>> {
    Starts(packets) + if p.pusi then [Meaningful(p.adaptation)] else []
  }

  predicate FillsExactly(p: Packet) {
    Used(p) == PACKET_SIZE && Serialize(p).Some?
  }

  /** 188 bytes without filling, unless the field is too long for its own length byte. */
  predicate WellSized(p: Packet) {
    && ((p.adaptation.Some? ==> NoWrap(p.adaptation.value)) ==>
          FillsExactly(p) && (p.adaptation.Some? ==> Fits(p.adaptation.value)))
    && (!p.hasPayload ==> p.payload == []) && p.scrambling == 0
  }

  /** Packets of one PID, each of the right size. */
  ghost predicate AllMade(pid: nat, packets: seq<Packet>) {
    forall i :: 0 <= i < |packets| ==> Made(pid, packets[i])
  }

  predicate Made(pid: nat, p: Packet) {
    p.pid == pid && !p.errorIndicator && !p.priority && WellSized(p)
  }

  lemma AllMadeSnoc(pid: nat, packets: seq<Packet>, k: Packet)
    requires AllMade(pid, packets) && Made(pid, k)
    ensures AllMade(pid, packets + [k])
  {
  }

  // ---- the packets that are made ----

  /** flushPayloadPacket's packet; remaining room goes to stuffing. */
  function PayloadPacket(pid: nat, cc: byte, p: Pending): Option<Packet> {
    var size := BODY - |p.payload|;
    var bare := Packet(false, p.pusi, false, pid, 0, true, cc, None, p.payload);
    if size == 0 then Some(bare)
    else match (if p.adaptation.None? then StuffingField(size) else WithSize(p.adaptation.value, size))
      case None => None
      case Some(f) => Some(bare.(adaptation := Some(f)))
  }

  /** writeAdaptationOnly's packet. */
  function FieldPacket(pid: nat, cc: byte, f: Field): Option<Packet> {
    match WithSize(f, BODY)
    case None => None
    case Some(g) => Some(Packet(false, false, false, pid, 0, false, (cc as int + 15) % 16, Some(g), []))
  }

  lemma PayloadPacketMade(pid: nat, cc: byte, p: Pending)
    requires 0 < |p.payload| <= Capacity(p.adaptation)
    requires p.adaptation.Some? ==> HasData(p.adaptation.value)
    ensures PayloadPacket(pid, cc, p).Some?
    ensures var k := PayloadPacket(pid, cc, p).value;
      && k.hasPayload && k.cc == cc && k.pid == pid
      && PayloadPart(k) == Part(p.pusi, p.payload) && FieldPart(k) == Part(p.pusi, Meaningful(p.adaptation))
      && WellSized(k)
  {
    var size := BODY - |p.payload|;
    if size > 0 {
      RoomTaken(p.adaptation, size);
    }
  }

  /** The field that takes up exactly the room beside a payload, and says the same. */
  lemma RoomTaken(a: Option<Field>, size: int)
    requires 0 < size <= BODY && (a.Some? ==> HasData(a.value))
    requires size >= BODY - Capacity(a)
    ensures var g := if a.None? then StuffingField(size) else WithSize(a.value, size);
      && g.Some? && Meaningful(g) == Meaningful(a)
      && ((a.Some? ==> NoWrap(a.value)) ==> Fits(g.value) && |WriteField(g.value)| == size)
      && (a.Some? && NoWrap(g.value) ==> NoWrap(a.value))
  {
    if a.None? {
      StuffingFieldExact(size);
    } else if NoWrap(a.value) {
      WithSizeExact(a.value, size);
    }
  }

  lemma FieldPacketMade(pid: nat, cc: byte, f: Field)
    requires HasData(f) && BareSize(f) <= BODY
    ensures FieldPacket(pid, cc, f).Some?
    ensures var k := FieldPacket(pid, cc, f).value;
      && !k.hasPayload && k.cc == (cc as int + 15) % 16 && k.pid == pid
      && PayloadPart(k) == Part(false, []) && FieldPart(k) == Part(false, [Strip(f)])
      && WellSized(k)
  {
    if NoWrap(f) {
      WithSizeExact(f, BODY);
    }
  }

  ghost predicate UnfoldIssued(k: int) { true }

  /** Packets of one PID, each of the right size, with counters that run on from `start`
    * since packet `mark` and reach `cc`. Sealed. */
  ghost predicate Issued(pid: nat, packets: seq<Packet>, start: byte, mark: nat, cc: byte) {
    forall k {:trigger UnfoldIssued(k)} :: UnfoldIssued(k) ==>
      AllMade(pid, packets) && CountersRun(packets, start, mark, cc)
  }

  ghost predicate CountersRun(packets: seq<Packet>, start: byte, mark: nat, cc: byte) {
    mark <= |packets| && Counted(start, packets[mark..]) && cc == NextCounter(start, packets[mark..])
  }

  function CounterAfter(cc: byte, hasPayload: bool): byte {
    if hasPayload then (cc as int + 1) % 16 else cc
  }

  lemma CountersMore(packets: seq<Packet>, start: byte, mark: nat, cc: byte, k: Packet)
    requires CountersRun(packets, start, mark, cc)
    requires k.cc == if k.hasPayload then cc as int else (cc as int + 15) % 16
    ensures CountersRun(packets + [k], start, mark, CounterAfter(cc, k.hasPayload))
  {
    assert (packets + [k])[mark..] == packets[mark..] + [k];
    CountedSnoc(start, packets[mark..], k);
  }

  lemma SentMore(pid: nat, packets: seq<Packet>, start: byte, mark: nat, cc: byte, k: Packet)
    requires Issued(pid, packets, start, mark, cc)
    requires Made(pid, k) && k.cc == if k.hasPayload then cc as int else (cc as int + 15) % 16
    ensures Issued(pid, packets + [k], start, mark, CounterAfter(cc, k.hasPayload))
  {
    assert UnfoldIssued(0);
    CountersMore(packets, start, mark, cc, k);
    AllMadeSnoc(pid, packets, k);
  }

  // ---- what sending does to what is carried ----

  lemma NothingSent(pid: nat)
    ensures Carries([], NOTHING, NOTHING_WRITTEN) && Issued(pid, [], 0, 0, 0)
  {
    assert Units([]) == [[]] && Fields([]) == [[]];
    ExtendNothing(Units([]));
    ExtendNothing(Fields([]));
  }

  lemma CounterSet(pid: nat, packets: seq<Packet>, start: byte, mark: nat, cc: byte, next: byte)
    requires Issued(pid, packets, start, mark, cc)
    ensures Issued(pid, packets, next, |packets|, next)
  {
    assert UnfoldIssued(0);
    assert packets[|packets|..] == [];
  }

  lemma SentPending(packets: seq<Packet>, p: Pending, w: Written, k: Packet)
    requires Carries(packets, p, w)
    requires PayloadPart(k) == Part(p.pusi, p.payload) && FieldPart(k) == Part(p.pusi, Meaningful(p.adaptation))
    ensures Carries(packets + [k], NOTHING, w)
  {
    assert UnfoldCarries(0);
    UnitsSnoc(packets, k);
    StartsSnoc(packets, k);
    assert StartsWith(packets + [k], NOTHING) == StartsWith(packets, p);
    ExtendNothing(w.units);
    ExtendNothing(w.fields);
  }

  lemma SentField(packets: seq<Packet>, w: Written, f: Field, k: Packet)
    requires Carries(packets, NOTHING, w) && WrittenOk(w) && HasData(f)
    requires PayloadPart(k) == Part(false, []) && FieldPart(k) == Part(false, [Strip(f)])
    ensures Carries(packets + [k], NOTHING, AddField(w, Some(f)))
  {
    NewField(packets, NOTHING, w, f);
    SentPending(packets, NOTHING.(adaptation := Some(f)), AddField(w, Some(f)), k);
  }

  /** The whole effect of flushPayloadPacket. */
  lemma PayloadSent(taken: seq<Packet>, packets: seq<Packet>, p: Pending, w: Written, pid: nat, start: byte,
    mark: nat, cc: byte)
    requires Carries(taken + packets, p, w) && Issued(pid, taken + packets, start, mark, cc)
    requires 0 < |p.payload| <= Capacity(p.adaptation) && (p.adaptation.Some? ==> HasData(p.adaptation.value))
    ensures PayloadPacket(pid, cc, p).Some?
    ensures var k := PayloadPacket(pid, cc, p).value;
      && Carries(taken + (packets + [k]), NOTHING, w)
      && Issued(pid, taken + (packets + [k]), start, mark, (cc as int + 1) % 16)
  {
    PayloadPacketMade(pid, cc, p);
    var k := PayloadPacket(pid, cc, p).value;
    ConcatAssociates(taken, packets, [k]);
    SentPending(taken + packets, p, w, k);
    SentMore(pid, taken + packets, start, mark, cc, k);
  }

  /** The whole effect of flushPendingAdaptationOnly. */
  lemma PendingFieldSent(taken: seq<Packet>, packets: seq<Packet>, f: Field, w: Written, pid: nat, start: byte,
    mark: nat, cc: byte)
    requires Carries(taken + packets, Pending(false, [], Some(f)), w)
    requires Issued(pid, taken + packets, start, mark, cc) && HasData(f) && BareSize(f) <= BODY
    ensures FieldPacket(pid, cc, f).Some?
    ensures var k := FieldPacket(pid, cc, f).value;
      && Carries(taken + (packets + [k]), NOTHING, w)
      && Issued(pid, taken + (packets + [k]), start, mark, cc)
  {
    FieldPacketMade(pid, cc, f);
    var k := FieldPacket(pid, cc, f).value;
    ConcatAssociates(taken, packets, [k]);
    SentPending(taken + packets, Pending(false, [], Some(f)), w, k);
    SentMore(pid, taken + packets, start, mark, cc, k);
  }

  /** The whole effect of writeAdaptationOnly on its own. */
  lemma FieldSent(taken: seq<Packet>, packets: seq<Packet>, f: Field, w: Written, pid: nat, start: byte, mark: nat,
    cc: byte)
    requires Carries(taken + packets, NOTHING, w) && WrittenOk(w)
    requires Issued(pid, taken + packets, start, mark, cc) && HasData(f) && BareSize(f) <= BODY
    ensures FieldPacket(pid, cc, f).Some?
    ensures var k := FieldPacket(pid, cc, f).value;
      && Carries(taken + (packets + [k]), NOTHING, AddField(w, Some(f)))
      && Issued(pid, taken + (packets + [k]), start, mark, cc)
  {
    FieldPacketMade(pid, cc, f);
    var k := FieldPacket(pid, cc, f).value;
    ConcatAssociates(taken, packets, [k]);
    SentField(taken + packets, w, f, k);
    SentMore(pid, taken + packets, start, mark, cc, k);
  }

  lemma MoreBytes(packets: seq<Packet>, p: Pending, w: Written, data: seq<byte>)
    requires Carries(packets, p, w) && WrittenOk(w)
    ensures Carries(packets, p.(payload := p.payload + data), AddBytes(w, data))
  {
    assert UnfoldCarries(0);
    ExtendTwice(Units(packets), p.pusi, p.payload, data);
  }

  lemma NewField(packets: seq<Packet>, p: Pending, w: Written, f: Field)
    requires Carries(packets, p, w) && WrittenOk(w) && p.adaptation.None? && HasData(f)
    ensures Carries(packets, p.(adaptation := Some(f)), AddField(w, Some(f)))
  {
    assert UnfoldCarries(0);
    ExtendTwice(Fields(packets), p.pusi, [], [Strip(f)]);
    assert [] + [Strip(f)] == [Strip(f)];
    if p.pusi {
      assert StartsWith(packets, p)[|Starts(packets)|] == [];
    }
  }

  lemma BeganUnit(packets: seq<Packet>, p: Pending, w: Written)
    requires Carries(packets, p, w) && WrittenOk(w) && p.payload == [] && !p.pusi
    ensures Carries(packets, p.(pusi := true), AddUnit(w, p.adaptation, []))
  {
    assert UnfoldCarries(0);
    ExtendNothing(Units(packets));
    var field := Meaningful(p.adaptation);
    if field == [] {
      ExtendNothing(Fields(packets));
    } else {
      var before, fields := Fields(packets), w.fields;
      var n := |before| - 1;
      assert fields[n] == before[n] + field;
      assert fields[n][..|fields[n]| - 1] == before[n];
      assert before == fields[..n] + [before[n]];
    }
    assert StartsWith(packets, p.(pusi := true)) == StartsWith(packets, p) + [field];
  }

  lemma HeaderOfUnit(w: Written, waiting: Option<Field>, header: seq<byte>)
    requires WrittenOk(w)
    ensures AddBytes(AddUnit(w, waiting, []), header) == AddUnit(w, waiting, header)
  {
    assert [] + header == header;
  }

  lemma AddNothing(w: Written, a: Option<Field>)
    requires WrittenOk(w)
    ensures AddBytes(w, []) == w
    ensures Meaningful(a) == [] ==> AddField(w, a) == w
  {
    ExtendNothing(w.units);
    ExtendNothing(w.fields);
  }

  lemma AddTwice(w: Written, a: seq<byte>, b: seq<byte>)
    requires WrittenOk(w)
    ensures AddBytes(AddBytes(w, a), b) == AddBytes(w, a + b)
  {
    ExtendTwice(w.units, false, a, b);
  }

  // ---- the packetizer ----

  /** What BeginPES asks of a header. */
  predicate BeginsPES(header: seq<byte>) {
    |header| >= 6 && PrefixOk(header)
  }

  ghost predicate UnfoldPacketizer(k: int) { true }

  class TSPacketizer {
    const pid: nat
    var cc: byte
    const payload: array<byte>
    var payloadLen: nat
    var pusi: bool
    var adaptation: Option<Field>
    var pesOpen: bool
    var packets: seq<Packet>

    /** Packets handed out before, everything written, and the last counter that was set,
      * with the number of packets before it. */
    ghost var taken: seq<Packet>
    ghost var written: Written
    ghost var start: byte
    ghost var mark: nat

    ghost function Emitted(): seq<Packet>
      reads this
    {
      taken + packets
    }

    ghost function Current(): Pending
      requires payloadLen <= payload.Length
      reads this, payload
    {
      Pending(pusi, payload[..payloadLen], adaptation)
    }

    ghost predicate Tied()
      reads this, payload
    {
      && payload.Length == BODY && payloadLen <= BODY && WrittenOk(written)
      && Carries(Emitted(), Current(), written)
      && Issued(pid, Emitted(), start, mark, cc)
      && (payloadLen > 0 || pusi ==> pesOpen)
      && (adaptation.Some? ==> HasData(adaptation.value))
    }

    /** Holds between the calls. A packet that starts a PES has a byte of it. Sealed but
      * for its first line. */
    ghost predicate Valid()
      reads this, payload
    {
      && payload.Length == BODY && payloadLen <= BODY && WrittenOk(written)
      && forall k {:trigger UnfoldPacketizer(k)} :: UnfoldPacketizer(k) ==> Settled()
    }

    ghost predicate Settled()
      reads this, payload
    {
      Tied() && payloadLen < Capacity(adaptation) && (pusi ==> payloadLen > 0)
    }

    constructor (pid: nat)
      ensures Valid() && this.pid == pid && fresh(payload)
      ensures written == NOTHING_WRITTEN && Emitted() == [] && taken == [] && mark == 0 && !pesOpen
        && Current() == NOTHING
    {
      this.pid := pid;
      cc := 0;
      payload := new byte[BODY](_ => 0);
      payloadLen, pusi, adaptation := 0, false, None;
      pesOpen, packets := false, [];
      taken, written, start, mark := [], NOTHING_WRITTEN, 0, 0;
      new;
      NothingYet();
    }

    lemma NothingYet()
      requires payload.Length == BODY && payloadLen == 0 && !pusi && adaptation.None? && packets == []
      requires taken == [] && written == NOTHING_WRITTEN && start == 0 && cc == 0 && mark == 0
      ensures Valid() && Current() == NOTHING && Emitted() == []
    {
      assert payload[..0] == [];
      NothingSent(pid);
    }

    method SetContinuityCounter(cc: byte)
      requires Valid()
      modifies this`cc, this`start, this`mark
      ensures Valid() && this.cc == cc == start && mark == |Emitted()| && Current() == old(Current())
    {
      assert UnfoldPacketizer(0);
      CounterSet(pid, Emitted(), start, mark, this.cc, cc);
      this.cc := cc;
      start, mark := cc, |Emitted()|;
    }

    /** With nothing pending and nothing in the queue, the packets taken are all there is. */
    lemma TakenIsAll()
      requires Valid() && Current() == NOTHING && packets == []
      ensures Carries(taken, NOTHING, written) && Issued(pid, taken, start, mark, cc)
    {
      assert UnfoldPacketizer(0);
      assert taken + [] == taken;
    }

    /** flushPayloadPacket; its two errors are excluded by the precondition, which every call meets. */
    method FlushPayloadPacket()
      requires Tied() && 0 < payloadLen <= Capacity(adaptation)
      modifies this`cc, this`payloadLen, this`pusi, this`adaptation, this`packets, payload
      ensures Tied() && Current() == NOTHING
      ensures old(packets) <= packets
    {
      var current := Pending(pusi, payload[..payloadLen], adaptation);
      PayloadSent(taken, packets, current, written, pid, start, mark, cc);
      var packet := PayloadPacket(pid, cc, current).value;
      packets := packets + [packet];
      cc := (cc as int + 1) % 16;
      Reset();
    }

    method Reset()
      requires payload.Length == BODY
      modifies this`payloadLen, this`pusi, this`adaptation, payload
      ensures payloadLen == 0 && Current() == NOTHING
    {
      forall i | 0 <= i < BODY {
        payload[i] := 0;
      }
      payloadLen, pusi, adaptation := 0, false, None;
      assert payload[..0] == [];
    }

    /** writeAdaptationOnly for a field that fits, with nothing pending. */
    method SendField(f: Field)
      requires Tied() && Current() == NOTHING && HasData(f) && BareSize(f) <= BODY
      modifies this`packets, this`written
      ensures Tied() && written == AddField(old(written), Some(f))
      ensures old(packets) <= packets
    {
      FieldSent(taken, packets, f, written, pid, start, mark, cc);
      packets := packets + [FieldPacket(pid, cc, f).value];
      written := AddField(written, Some(f));
    }

    /** flushPendingAdaptationOnly, which cannot fail either. */
    method FlushPendingAdaptationOnly()
      requires Tied() && payloadLen == 0 && !pusi && adaptation.Some? && Capacity(adaptation) >= 0
      modifies this`packets, this`adaptation
      ensures Tied() && Current() == NOTHING
      ensures old(packets) <= packets
    {
      assert Current() == Pending(false, [], adaptation);
      PendingFieldSent(taken, packets, adaptation.value, written, pid, start, mark, cc);
      packets := packets + [FieldPacket(pid, cc, adaptation.value).value];
      adaptation := None;
      assert Current() == NOTHING;
    }

    /** Send whatever is pending, so that a field that comes now starts a packet of its own. */
    method FlushOlder()
      requires Valid()
      modifies this`cc, this`payloadLen, this`pusi, this`adaptation, this`packets, payload
      ensures Valid() && Current() == NOTHING
      ensures old(packets) <= packets
    {
      assert UnfoldPacketizer(0);
      if payloadLen > 0 {
        FlushPayloadPacket();
      } else if adaptation.Some? {
        FlushPendingAdaptationOnly();
      } else {
        assert payload[..0] == [];
      }
    }

    method Append(data: seq<byte>)
      requires payloadLen + |data| <= payload.Length
      modifies this`payloadLen, payload
      ensures payloadLen == old(payloadLen) + |data|
      ensures Current() == old(Current()).(payload := old(Current()).payload + data)
    {
      forall i | 0 <= i < |data| {
        payload[payloadLen + i] := data[i];
      }
      payloadLen := payloadLen + |data|;
      assert payload[..payloadLen] == old(payload[..payloadLen]) + data;
    }

    /** One turn of writePESBytes: copy what fits and send a packet that is full. */
    method WriteSome(data: seq<byte>) returns (n: nat)
      requires Tied() && payloadLen < Capacity(adaptation) && pesOpen && data != []
      modifies this`cc, this`payloadLen, this`pusi, this`adaptation, this`packets, this`written, payload
      ensures Valid() && pesOpen && 0 < n <= |data|
      ensures written == AddBytes(old(written), data[..n])
      ensures old(packets) <= packets
    {
      var capacity := Capacity(adaptation);
      n := if |data| < capacity - payloadLen then |data| else capacity - payloadLen;
      MoreBytes(Emitted(), Current(), written, data[..n]);
      Append(data[..n]);
      written := AddBytes(written, data[..n]);
      if payloadLen == capacity {
        FlushPayloadPacket();
      }
    }

    /** writePESBytes. Between its turns the pending packet is never full, so the
      * branch that sends a full packet before copying, and the two capacity errors, are dead. */
    method WritePESBytes(data: seq<byte>)
      requires Tied() && payloadLen < Capacity(adaptation) && pesOpen
      requires pusi && payloadLen == 0 ==> data != []
      modifies this`cc, this`payloadLen, this`pusi, this`adaptation, this`packets, this`written, payload
      ensures Valid() && pesOpen
      ensures written == AddBytes(old(written), data)
      ensures old(packets) <= packets
    {
      var rest := data;
      ghost var done: seq<byte> := [];
      AddNothing(written, None);
      while rest != []
        invariant data == done + rest
        invariant Tied() && payloadLen < Capacity(adaptation) && pesOpen
        invariant pusi && payloadLen == 0 ==> rest != []
        invariant written == AddBytes(old(written), done)
        invariant old(packets) <= packets
        decreases |rest|
      {
        if payloadLen == Capacity(adaptation) {
          assert false;
        }
        var n := WriteSome(rest);
        assert UnfoldPacketizer(0);
        AddTwice(old(written), done, rest[..n]);
        done, rest := done + rest[..n], rest[n..];
      }
      assert done == data;
    }

    /** Fails exactly on an open PES or a malformed header. */
    method BeginPES(header: seq<byte>) returns (ok: bool)
      requires Valid()
      modifies this`cc, this`payloadLen, this`pusi, this`adaptation, this`pesOpen, this`packets, this`written, payload
      ensures Valid()
      ensures ok <==> !old(pesOpen) && BeginsPES(header)
      ensures ok ==> pesOpen && written == AddUnit(old(written), old(adaptation), header)
      ensures ok ==> old(packets) <= packets
      ensures !ok ==> unchanged(this) && unchanged(payload)
    {
      assert UnfoldPacketizer(0);
      if pesOpen || !BeginsPES(header) {
        return false;
      }
      assert payload[..0] == [];
      BeganUnit(Emitted(), Current(), written);
      HeaderOfUnit(written, adaptation, header);
      written := AddUnit(written, adaptation, []);
      pusi, pesOpen := true, true;
      WritePESBytes(header);
      return true;
    }

    method WritePESPayload(data: seq<byte>) returns (ok: bool)
      requires Valid()
      modifies this`cc, this`payloadLen, this`pusi, this`adaptation, this`packets, this`written, payload
      ensures Valid() && ok == pesOpen
      ensures ok ==> written == AddBytes(old(written), data) && old(packets) <= packets
      ensures !ok ==> unchanged(this) && unchanged(payload)
    {
      assert UnfoldPacketizer(0);
      if !pesOpen {
        return false;
      }
      WritePESBytes(data);
      return true;
    }

    /** The PES ends in a packet of its own, or after its last full one. */
    method EndPES() returns (ok: bool)
      requires Valid()
      modifies this`cc, this`payloadLen, this`pusi, this`adaptation, this`pesOpen, this`packets, payload
      ensures Valid() && ok == old(pesOpen)
      ensures ok ==> !pesOpen && Current() == NOTHING && old(packets) <= packets
      ensures !ok ==> unchanged(this) && unchanged(payload)
    {
      assert UnfoldPacketizer(0);
      if !pesOpen {
        return false;
      }
      FlushOlder();
      pesOpen := false;
      return true;
    }

    method TakePackets() returns (r: seq<Packet>)
      requires Valid()
      modifies this`packets, this`taken
      ensures Valid() && r == old(packets) && packets == [] && Emitted() == old(Emitted())
        && Current() == old(Current())
    {
      assert UnfoldPacketizer(0);
      r := packets;
      taken, packets := taken + packets, [];
      assert taken + [] == taken;
    }

    /** A field that says something is accepted exactly if it leaves room for a byte; it
      * goes out with the next payload, in a packet of its own if another field waits. */
    method SetNextPacketAdaptationField(field: Option<Field>) returns (ok: bool)
      requires Valid()
      modifies this`cc, this`payloadLen, this`pusi, this`adaptation, this`packets, this`written, payload
      ensures Valid()
      ensures ok <==> Meaningful(field) == [] || BareSize(field.value) < BODY
      ensures written == if ok then AddField(old(written), field) else old(written)
      ensures ok && Meaningful(field) != [] ==> adaptation == field
      ensures Meaningful(field) == [] ==> unchanged(this) && unchanged(payload)
      ensures !old(pesOpen) && ok && Meaningful(field) != [] ==> Current() == Pending(false, [], field)
      ensures old(packets) <= packets
    {
      assert UnfoldPacketizer(0);
      if field.None? || !HasData(field.value) {
        AddNothing(written, field);
        return true;
      }
      if adaptation.Some? {
        FlushOlder();
      }
      var capacity := Capacity(field);
      if capacity <= 0 {
        return false;
      }
      if payloadLen >= capacity {
        FlushPayloadPacket();
      }
      NewField(Emitted(), Current(), written, field.value);
      written := AddField(written, field);
      adaptation := field;
      return true;
    }

    /** A packet without payload: accepted exactly if the field fits a packet. */
    method WriteAdaptationOnly(field: Option<Field>) returns (ok: bool)
      requires Valid()
      modifies this`cc, this`payloadLen, this`pusi, this`adaptation, this`packets, this`written, payload
      ensures Valid()
      ensures ok <==> Meaningful(field) == [] || BareSize(field.value) <= BODY
      ensures written == if ok then AddField(old(written), field) else old(written)
      ensures Meaningful(field) == [] ==> unchanged(this) && unchanged(payload)
      ensures Meaningful(field) != [] ==> Current() == NOTHING
      ensures old(packets) <= packets
    {
      assert UnfoldPacketizer(0);
      if field.None? || !HasData(field.value) {
        AddNothing(written, field);
        return true;
      }
      FlushOlder();
      if BareSize(field.value) > BODY {
        return false;
      }
      SendField(field.value);
      return true;
    }

    /** Succeeds exactly when no PES is open; then nothing is pending any more. */
    method Flush() returns (ok: bool)
      requires Valid()
      modifies this`packets, this`adaptation
      ensures Valid() && ok == !pesOpen
      ensures ok ==> Current() == NOTHING && old(packets) <= packets
      ensures old(adaptation).None? ==> packets == old(packets)
      ensures !ok ==> unchanged(this)
    {
      assert UnfoldPacketizer(0);
      if pesOpen {
        return false;
      }
      if adaptation.Some? {
        FlushPendingAdaptationOnly();
      } else {
        assert payload[..0] == [];
      }
      return true;
    }
  }
}
