/** What the PES collector makes of a stream, independently of how it is cut into
  * transport packets.
  */
module PesFraming {
  import opened Bytes
  import opened PesQueues
  import opened PesCollector

  // ---- cutting a payload in two ----

  /** A PES is under way after the PUSI flag has been looked at. */
  predicate UnderWay(s: State, pusi: bool) {
    pusi || s.phase != Idle
  }

  /** When two calls do what one call does: exactly unless the first part already
    * completes a bounded PES and more bytes follow. One call refuses those bytes, a
    * later call ignores them. The phase is Idle there exactly if Active() returns false
    * between the two calls. */
  lemma CutExactly(s: State, pusi: bool, a: seq<byte>, b: seq<byte>)
    requires StateOk(s) && Consume(s, pusi, a).Ok?
    ensures Consume(Consume(s, pusi, a).state, false, b) == Consume(s, pusi, a + b)
      <==> !(UnderWay(s, pusi) && Consume(s, pusi, a).state.phase == Idle && b != [])
  {
    var r := Consume(s, pusi, a).state;
    if UnderWay(s, pusi) {
      var t := if pusi then Finish(s).state.(phase := InHeader([])) else s;
      BytesConcat(t, a, b);
      if r.phase == Idle && b != [] {
        assert ManyBytes(r, b) == Failed(BytesAfterEnd);
      }
    }
  }

  /** If one call succeeds, every cut of it succeeds with the same outcome. */
  lemma CutFreely(s: State, pusi: bool, a: seq<byte>, b: seq<byte>)
    requires StateOk(s) && Consume(s, pusi, a + b).Ok?
    ensures Consume(s, pusi, a).Ok?
    ensures Consume(Consume(s, pusi, a).state, false, b) == Consume(s, pusi, a + b)
  {
    if UnderWay(s, pusi) {
      var t := if pusi then Finish(s).state.(phase := InHeader([])) else s;
      BytesConcat(t, a, b);
      if b == [] {
        assert a + b == a;
      }
    }
  }

  /** The failing side exists: a bounded PES with a 4-byte payload and one byte too many. */
  lemma CutCounterexample()
    ensures var header: seq<byte> := [0, 0, 1, 0xC0, 0, 7, 0x80, 0, 0];
      var pes: seq<byte> := header + [1, 2, 3, 4];
      var start := State(Idle, []);
      && Consume(start, true, pes) == Ok(State(Idle, [PES(header, [1, 2, 3, 4], true)]))
      && Consume(start, true, pes + [5]) == Failed(BytesAfterEnd)
      && Consume(Consume(start, true, pes).state, false, [5]).Ok?
  {
    var header: seq<byte> := [0, 0, 1, 0xC0, 0, 7, 0x80, 0, 0];
    var payload: seq<byte> := [1, 2, 3, 4];
    CollectUnit(State(InHeader([]), []), header, payload);
    var start := State(Idle, []);
    assert State(InHeader([]), []) == start.(phase := InHeader([]));
    CutExactly(start, true, header + payload, [5]);
    BytesConcat(State(InHeader([]), []), header + payload, [5]);
  }

  // ---- whole PES packets ----

  /** A PES header that is as long as its byte 8, PES_header_data_length, says. */
  predicate HeaderFine(header: seq<byte>) {
    |header| >= 9 && |header| == 9 + header[8] as int && header[0] == 0 && header[1] == 0 && header[2] == 1
  }

  /** PES_packet_length: the bytes behind it, or 0 if that is left open. */
  function Announced(header: seq<byte>): nat
    requires |header| >= 9
  {
    header[4] as int * 256 + header[5] as int
  }

  /** A PES whose length fields agree with its contents. */
  predicate UnitOk(header: seq<byte>, payload: seq<byte>) {
    HeaderFine(header) && (Announced(header) == 0 || Announced(header) == |header| - 6 + |payload|)
  }

  /** After its last byte a bounded PES is closed and an unbounded one is still open. */
  function AfterUnit(out: seq<PES>, header: seq<byte>, payload: seq<byte>): State
    requires |header| >= 9
  {
    if Announced(header) == 0 then State(InPayload(-1), out + [PES(header, payload, false)])
    else State(Idle, out + [PES(header, payload, true)])
  }

  lemma CollectHeader(s: State, header: seq<byte>)
    requires StateOk(s) && s.phase == InHeader([])
    requires |header| >= 9 && |header| == HeaderLength(header) && PrefixOk(header) && PayloadLength(header) >= -1
    ensures ManyBytes(s, header) == HeaderStep(s.out, header)
  {
    var first, more := header[..9], header[9..];
    assert [] + first == first && header == first + more;
    HeaderSlice(s, first);
    assert HeaderLength(first) == HeaderLength(header) && PayloadLength(first) == PayloadLength(header);
    if more == [] {
      assert first == header;
    } else {
      BytesConcat(s, first, more);
      HeaderSlice(State(InHeader(first), s.out), more);
    }
  }

  /** The bytes of a well-formed PES give exactly that PES. */
  lemma CollectUnit(s: State, header: seq<byte>, payload: seq<byte>)
    requires StateOk(s) && s.phase == InHeader([]) && UnitOk(header, payload)
    ensures ManyBytes(s, header + payload) == Ok(AfterUnit(s.out, header, payload))
  {
    CollectHeader(s, header);
    BytesConcat(s, header, payload);
    HeaderDone(s.out, header, payload);
    if payload != [] {
      CollectPayload(s.out, header, payload);
    }
  }

  lemma HeaderDone(out: seq<PES>, header: seq<byte>, payload: seq<byte>)
    requires !Open(out) && UnitOk(header, payload)
    ensures HeaderStep(out, header) ==
      if payload == [] then Ok(AfterUnit(out, header, payload))
      else Ok(State(InPayload(PayloadLength(header)), out + [PES(header, [], false)]))
  {
  }

  lemma CollectPayload(out: seq<PES>, header: seq<byte>, payload: seq<byte>)
    requires !Open(out) && UnitOk(header, payload) && payload != []
    ensures var t := State(InPayload(PayloadLength(header)), out + [PES(header, [], false)]);
      StateOk(t) && ManyBytes(t, payload) == Ok(AfterUnit(out, header, payload))
  {
    var t := State(InPayload(PayloadLength(header)), out + [PES(header, [], false)]);
    PayloadSlice(t, payload);
    assert [] + payload == payload;
    assert AppendLast(t.out, payload) == out + [PES(header, payload, false)];
    if Announced(header) != 0 {
      assert EndLast(AppendLast(t.out, payload)) == out + [PES(header, payload, true)];
    }
  }

  /** What the bytes of one PES lead to, by its length field: the header ends behind the bytes that
    * byte 8 counts and what follows is payload. */
  function Outcome(header: seq<byte>, payload: seq<byte>): Result
    requires |header| >= 9
  {
    var n, m := Announced(header), |header| - 6 + |payload|;
    if n == 0 then Ok(State(InPayload(-1), [PES(header, payload, false)]))
    else if n < |header| - 6 then Failed(LengthShorterThanHeader)
    else if n < m then Failed(BytesAfterEnd)
    else if n == m then Ok(State(Idle, [PES(header, payload, true)]))
    else Ok(State(InPayload(n - m), [PES(header, payload, false)]))
  }

  /** Nine bytes, as many as the last of them says, and then the payload. */
  lemma HeaderEnds(first: seq<byte>, more: seq<byte>, payload: seq<byte>)
    requires |first| == 9 && first[..3] == [0, 0, 1] && |more| == first[8] as int
    ensures Consume(State(Idle, []), true, first + more + payload) == Outcome(first + more, payload)
  {
    var header, start := first + more, State(InHeader([]), []);
    assert header[..3] == first[..3];
    assert start == State(Idle, []).(phase := InHeader([]));
    BytesConcat(start, header, payload);
    if Announced(header) != 0 && Announced(header) < |header| - 6 {
      TooShort(start, first, more + payload);
      assert first + more + payload == first + (more + payload);
    } else {
      CollectHeader(start, header);
      if UnitOk(header, payload) {
        CollectUnit(start, header, payload);
      } else {
        OtherLength(header, payload);
      }
    }
  }

  lemma TooShort(s: State, first: seq<byte>, more: seq<byte>)
    requires StateOk(s) && s.phase == InHeader([]) && |first| == 9 && first[..3] == [0, 0, 1]
    requires 0 < Announced(first) < 3 + first[8] as int
    ensures ManyBytes(s, first + more) == Failed(LengthShorterThanHeader)
  {
    hide HeaderStep, ManyBytes;
    BytesConcat(s, first, more);
    assert [] + first == first;
    HeaderSlice(s, first);
    assert first[0] == first[..3][0] && first[1] == first[..3][1] && first[2] == first[..3][2];
    Refused(s.out, first);
  }

  lemma Refused(out: seq<PES>, first: seq<byte>)
    requires !Open(out) && |first| == 9 && first[0] == 0 && first[1] == 0 && first[2] == 1
    requires 0 < Announced(first) < 3 + first[8] as int
    ensures HeaderStep(out, first) == Failed(LengthShorterThanHeader)
  {
  }

  /** Less or more payload than announced. */
  lemma OtherLength(header: seq<byte>, payload: seq<byte>)
    requires HeaderFine(header) && Announced(header) >= |header| - 6 && Announced(header) != |header| - 6 + |payload|
    requires Announced(header) > 0
    ensures HeaderStep([], header).Ok?
    ensures ManyBytes(HeaderStep([], header).state, payload) == Outcome(header, payload)
  {
    var n := Announced(header) - (|header| - 6);
    AnnouncedStep(header);
    if |payload| < n {
      if payload != [] {
        SomePayload(header, payload, n);
      }
    } else if n == 0 {
      BeyondEnd(HeaderStep([], header).state, payload);
    } else {
      TooMuch(header, payload, n);
    }
  }

  lemma AnnouncedStep(header: seq<byte>)
    requires HeaderFine(header) && Announced(header) > 0 && Announced(header) >= |header| - 6
    ensures var n := Announced(header) - (|header| - 6);
      HeaderStep([], header) ==
        Ok(if n == 0 then State(Idle, [PES(header, [], true)]) else State(InPayload(n), [PES(header, [], false)]))
  {
  }

  lemma SomePayload(header: seq<byte>, payload: seq<byte>, n: nat)
    requires payload != [] && |payload| <= n
    ensures var s := State(InPayload(n), [PES(header, [], false)]);
      ManyBytes(s, payload) ==
        Ok(if |payload| == n then State(Idle, [PES(header, payload, true)])
           else State(InPayload(n - |payload|), [PES(header, payload, false)]))
  {
    hide ManyBytes;
    var s := State(InPayload(n), [PES(header, [], false)]);
    PayloadSlice(s, payload);
    assert [] + payload == payload;
    assert AppendLast(s.out, payload) == [PES(header, payload, false)];
    assert EndLast([PES(header, payload, false)]) == [PES(header, payload, true)];
  }

  lemma TooMuch(header: seq<byte>, payload: seq<byte>, n: nat)
    requires 0 < n < |payload|
    ensures ManyBytes(State(InPayload(n), [PES(header, [], false)]), payload) == Failed(BytesAfterEnd)
  {
    hide ManyBytes;
    var s, head, rest := State(InPayload(n), [PES(header, [], false)]), payload[..n], payload[n..];
    assert payload == head + rest && rest != [];
    BytesConcat(s, head, rest);
    SomePayload(header, head, n);
    BeyondEnd(State(Idle, [PES(header, head, true)]), rest);
  }

  lemma BeyondEnd(s: State, payload: seq<byte>)
    requires StateOk(s) && s.phase == Idle && payload != []
    ensures ManyBytes(s, payload) == Failed(BytesAfterEnd)
  {
  }

  /** Within the header, or before the announced payload is there, the input must not end. */
  lemma EndsTooEarly(header: seq<byte>, k: nat, payload: seq<byte>)
    requires HeaderFine(header) && k < |header| && (Announced(header) == 0 || Announced(header) >= |header| - 6)
    ensures var r := Consume(State(Idle, []), true, header[..k]);
      r.Ok? && Finish(r.state) == Failed(HeaderIncomplete)
    ensures Announced(header) > |header| - 6 + |payload| ==>
      var r := Consume(State(Idle, []), true, header + payload);
      r.Ok? && Finish(r.state) == Failed(PayloadIncomplete)
  {
    HeaderBegun(header, k);
    if Announced(header) > |header| - 6 + |payload| {
      var first, more := header[..9], header[9..];
      assert header == first + more && first[..3] == [0, 0, 1];
      HeaderEnds(first, more, payload);
    }
  }

  lemma HeaderBegun(header: seq<byte>, k: nat)
    requires HeaderFine(header) && k < |header| && (Announced(header) == 0 || Announced(header) >= |header| - 6)
    ensures ManyBytes(State(InHeader([]), []), header[..k]) == Ok(State(InHeader(header[..k]), []))
  {
    hide ManyBytes;
    var s := State(InHeader([]), []);
    if k == 0 {
      NoBytes(s);
    } else if k <= 9 {
      assert [] + header[..k] == header[..k];
      HeaderSlice(s, header[..k]);
    } else {
      var first, more := header[..9], header[9..k];
      assert [] + first == first && header[..k] == first + more;
      BytesConcat(s, first, more);
      HeaderSlice(s, first);
      HeaderSlice(State(InHeader(first), []), more);
    }
  }

  lemma NoBytes(s: State)
    requires StateOk(s)
    ensures ManyBytes(s, []) == Ok(s)
  {
  }

  /** Anything but the start code prefix 00 00 01 is refused. */
  lemma PrefixNeeded(bytes: seq<byte>)
    requires |bytes| >= 3 && bytes[..3] != [0, 0, 1]
    ensures Consume(State(Idle, []), true, bytes) == Failed(StartCodePrefixMissing)
  {
    var s, head, rest := State(InHeader([]), []), bytes[..3], bytes[3..];
    assert s == State(Idle, []).(phase := InHeader([])) && bytes == head + rest && [] + head == head;
    BytesConcat(s, head, rest);
    HeaderSlice(s, head);
  }

  // ---- a stream of transport packet payloads ----

  datatype Chunk = Chunk(pusi: bool, payload: seq<byte>)

  function ConsumeAll(s: State, chunks: seq<Chunk>): (r: Result)
    requires StateOk(s)
    ensures r.Ok? ==> StateOk(r.state)
    decreases |chunks|
  {
    if chunks == [] then Ok(s)
    else
      var n := |chunks| - 1;
      match ConsumeAll(s, chunks[..n])
      case Failed(e) => Failed(e)
      case Ok(t) => Consume(t, chunks[n].pusi, chunks[n].payload)
  }

  /** The byte strings that start at the PUSI flags; what precedes the first is dropped. */
  function Reassemble(chunks: seq<Chunk>): seq<seq<byte>>
    decreases |chunks|
  {
    if chunks == [] then []
    else
      var n := |chunks| - 1;
      var groups := Reassemble(chunks[..n]);
      if chunks[n].pusi then groups + [chunks[n].payload]
      else if groups == [] then []
      else groups[|groups| - 1 := groups[|groups| - 1] + chunks[n].payload]
  }

  /** Each group in one piece. */
  function ConsumeGroups(s: State, groups: seq<seq<byte>>): (r: Result)
    requires StateOk(s)
    ensures r.Ok? ==> StateOk(r.state)
    decreases |groups|
  {
    if groups == [] then Ok(s)
    else
      var n := |groups| - 1;
      match ConsumeGroups(s, groups[..n])
      case Failed(e) => Failed(e)
      case Ok(t) => Consume(t, true, groups[n])
  }

  /** Where packets are cut between two PUSI flags does not matter. */
  lemma {:induction false} CutsDoNotMatter(s: State, chunks: seq<Chunk>)
    requires StateOk(s) && s.phase == Idle
    requires ConsumeGroups(s, Reassemble(chunks)).Ok?
    ensures ConsumeAll(s, chunks) == ConsumeGroups(s, Reassemble(chunks))
    decreases |chunks|
  {
    if chunks != [] {
      var n := |chunks| - 1;
      var before, last, all := Reassemble(chunks[..n]), chunks[n], Reassemble(chunks);
      if last.pusi {
        assert all[..|all| - 1] == before;
      } else if before != [] {
        var k := |before| - 1;
        assert all[..k] == before[..k] && all[k] == before[k] + last.payload;
        CutFreely(ConsumeGroups(s, before[..k]).state, true, before[k], last.payload);
      }
      CutsDoNotMatter(s, chunks[..n]);
    }
  }

  /** A PES to be carried. */
  datatype Unit = Unit(header: seq<byte>, payload: seq<byte>)

  function UnitBytes(u: Unit): seq<byte> {
    u.header + u.payload
  }

  function AllUnitBytes(units: seq<Unit>): (r: seq<seq<byte>>)
    ensures |r| == |units|
  {
    seq(|units|, i requires 0 <= i < |units| => UnitBytes(units[i]))
  }

  function Complete(units: seq<Unit>): (r: seq<PES>)
    ensures |r| == |units|
  {
    seq(|units|, i requires 0 <= i < |units| => PES(units[i].header, units[i].payload, true))
  }

  lemma {:induction false} ConsumeUnits(units: seq<Unit>)
    requires forall i :: 0 <= i < |units| ==> UnitOk(units[i].header, units[i].payload)
    ensures var r := ConsumeGroups(State(Idle, []), AllUnitBytes(units));
      r.Ok? && Finish(r.state) == Ok(State(Idle, Complete(units)))
    decreases |units|
  {
    if units != [] {
      var n := |units| - 1;
      var u, groups := units[n], AllUnitBytes(units);
      ConsumeUnits(units[..n]);
      assert groups[..n] == AllUnitBytes(units[..n]);
      OneMoreUnit(ConsumeGroups(State(Idle, []), groups[..n]).state, Complete(units[..n]), u);
      assert Complete(units) == Complete(units[..n]) + [PES(u.header, u.payload, true)];
    }
  }

  /** The next PUSI packet ends an unbounded PES, so whole units follow each other. */
  lemma OneMoreUnit(s: State, out: seq<PES>, u: Unit)
    requires StateOk(s) && Finish(s) == Ok(State(Idle, out)) && UnitOk(u.header, u.payload)
    ensures var r := Consume(s, true, UnitBytes(u));
      r.Ok? && Finish(r.state) == Ok(State(Idle, out + [PES(u.header, u.payload, true)]))
  {
    CollectUnit(State(InHeader([]), out), u.header, u.payload);
    if Announced(u.header) == 0 {
      var after := AfterUnit(out, u.header, u.payload);
      assert EndLast(after.out) == out + [PES(u.header, u.payload, true)];
    }
  }

  /** Packets that carry well-formed PES units, in any fragments, give back exactly
    * those units when the collector is flushed. */
  lemma CollectorRecovers(units: seq<Unit>, chunks: seq<Chunk>)
    requires forall i :: 0 <= i < |units| ==> UnitOk(units[i].header, units[i].payload)
    requires Reassemble(chunks) == AllUnitBytes(units)
    ensures var r := ConsumeAll(State(Idle, []), chunks);
      r.Ok? && Finish(r.state) == Ok(State(Idle, Complete(units)))
  {
    ConsumeUnits(units);
    CutsDoNotMatter(State(Idle, []), chunks);
  }
}
