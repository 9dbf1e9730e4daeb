/** ts/packets/pes.go: reassembling PES packets from the payloads of transport
  * packets (PES packet syntax: sections 2.4.3.6 and 2.4.3.7 of ISO/IEC 13818-1).
  *
  * The definition sees one byte at a time; the collector consumes slices.
  */
module PesCollector {
  import opened Bytes
  import opened Wrappers
  import opened PesQueues

  datatype Error =
    | StartCodePrefixMissing
    | LengthShorterThanHeader
    | BytesAfterEnd
    | HeaderIncomplete
    | PayloadIncomplete

  /** `remaining` is -1 for a PES of unbounded length. */
  datatype Phase = Idle | InHeader(bytes: seq<byte>) | InPayload(remaining: int)

  /** Where the collector stands and what its handler has received. */
  datatype State = State(phase: Phase, out: seq<PES>)

  datatype Result = Failed(error: Error) | Ok(state: State)

  predicate PrefixOk(header: seq<byte>) {
    |header| >= 3 ==> header[0] == 0 && header[1] == 0 && header[2] == 1
  }

  /** 9 + PES_header_data_length, once that byte is known. */
  function HeaderLength(header: seq<byte>): nat {
    if |header| < 9 then 0 else 9 + header[8] as int
  }

  function PacketLength(header: seq<byte>): nat
    requires |header| >= 9
  {
    header[4] as int * 256 + header[5] as int
  }

  /** Payload bytes of the PES: -1 when unbounded; -2 or less when the length field cannot be right. */
  function PayloadLength(header: seq<byte>): int
    requires |header| >= 9
  {
    if PacketLength(header) == 0 then -1
    else
      var n := PacketLength(header) + 6 - HeaderLength(header);
      if n < 0 then -2 else n
  }

  predicate Open(out: seq<PES>) {
    out != [] && !out[|out| - 1].ended
  }

  /** The handler has an open PES exactly while payload is expected. */
  predicate StateOk(s: State) {
    && (s.phase.InPayload? <==> Open(s.out))
    && (s.phase.InPayload? ==> s.phase.remaining == -1 || s.phase.remaining > 0)
    && (s.phase.InHeader? ==> PrefixOk(s.phase.bytes) && (HeaderLength(s.phase.bytes) > 0 ==>
          |s.phase.bytes| < HeaderLength(s.phase.bytes) && PayloadLength(s.phase.bytes) >= -1))
  }

  function EndLast(out: seq<PES>): seq<PES>
    requires out != []
  {
    out[|out| - 1 := out[|out| - 1].(ended := true)]
  }

  function AppendLast(out: seq<PES>, data: seq<byte>): seq<PES>
    requires out != []
  {
    out[|out| - 1 := out[|out| - 1].(payload := out[|out| - 1].payload + data)]
  }

  /** After `data` payload bytes: close a bounded PES that has all of them. */
  function PayloadStep(s: State, data: seq<byte>): (r: State)
    requires StateOk(s) && s.phase.InPayload? && (s.phase.remaining >= 0 ==> |data| <= s.phase.remaining)
    ensures StateOk(r)
  {
    var out := AppendLast(s.out, data);
    if s.phase.remaining < 0 then s.(out := out)
    else if s.phase.remaining == |data| then State(Idle, EndLast(out))
    else State(InPayload(s.phase.remaining - |data|), out)
  }

  /** One more header byte has arrived, giving `header`. */
  function HeaderStep(out: seq<PES>, header: seq<byte>): (r: Result)
    requires !Open(out) && header != []
    ensures r.Ok? && (HeaderLength(header) == 0 || |header| <= HeaderLength(header)) ==> StateOk(r.state)
  {
    if !PrefixOk(header) then Failed(StartCodePrefixMissing)
    else if |header| < 9 then Ok(State(InHeader(header), out))
    else if PayloadLength(header) < -1 then Failed(LengthShorterThanHeader)
    else if |header| < HeaderLength(header) then Ok(State(InHeader(header), out))
    else if PayloadLength(header) == 0 then Ok(State(Idle, out + [PES(header, [], true)]))
    else Ok(State(InPayload(PayloadLength(header)), out + [PES(header, [], false)]))
  }

  function Byte(s: State, b: byte): (r: Result)
    requires StateOk(s)
    ensures r.Ok? ==> StateOk(r.state)
  {
    match s.phase
    case Idle => Failed(BytesAfterEnd)
    case InHeader(bytes) => HeaderStep(s.out, bytes + [b])
    case InPayload(_) => Ok(PayloadStep(s, [b]))
  }

  function ManyBytes(s: State, data: seq<byte>): (r: Result)
    requires StateOk(s)
    ensures r.Ok? ==> StateOk(r.state)
    decreases data
  {
    if data == [] then Ok(s)
    else match Byte(s, data[0])
      case Failed(e) => Failed(e)
      case Ok(t) => ManyBytes(t, data[1..])
  }

  /** A PUSI packet or the end of the stream closes the PES before it. */
  function Finish(s: State): (r: Result)
    requires StateOk(s)
    ensures r.Ok? ==> StateOk(r.state) && r.state.phase == Idle
  {
    match s.phase
    case Idle => Ok(s)
    case InHeader(_) => Failed(HeaderIncomplete)
    case InPayload(n) => if n > 0 then Failed(PayloadIncomplete) else Ok(State(Idle, EndLast(s.out)))
  }

  /** One transport packet payload. Without a PES under way it is ignored. */
  function Consume(s: State, pusi: bool, payload: seq<byte>): (r: Result)
    requires StateOk(s)
    ensures r.Ok? ==> StateOk(r.state)
  {
    if pusi then
      match Finish(s)
      case Failed(e) => Failed(e)
      case Ok(t) => ManyBytes(t.(phase := InHeader([])), payload)
    else if s.phase == Idle then Ok(s)
    else ManyBytes(s, payload)
  }

  // ---- slices ----

  lemma {:induction false} BytesConcat(s: State, a: seq<byte>, b: seq<byte>)
    requires StateOk(s)
    ensures ManyBytes(s, a + b) ==
      match ManyBytes(s, a) case Failed(e) => Failed(e) case Ok(t) => ManyBytes(t, b)
    decreases a
  {
    if a == [] {
      assert a + b == b;
    } else {
      assert (a + b)[0] == a[0] && (a + b)[1..] == a[1..] + b;
      match Byte(s, a[0])
      case Failed(_) =>
      case Ok(t) => BytesConcat(t, a[1..], b);
    }
  }

  lemma PayloadJoins(s: State, a: seq<byte>, b: seq<byte>)
    requires StateOk(s) && s.phase.InPayload? && (s.phase.remaining >= 0 ==> |a| + |b| <= s.phase.remaining)
    requires b != []
    ensures PayloadStep(s, a).phase.InPayload? && PayloadStep(PayloadStep(s, a), b) == PayloadStep(s, a + b)
  {
    var k := |s.out| - 1;
    ConcatAssociates(s.out[k].payload, a, b);
    assert AppendLast(AppendLast(s.out, a), b) == AppendLast(s.out, a + b);
  }

  lemma {:induction false} PayloadSlice(s: State, data: seq<byte>)
    requires StateOk(s) && s.phase.InPayload? && data != [] && (s.phase.remaining >= 0 ==> |data| <= s.phase.remaining)
    ensures ManyBytes(s, data) == Ok(PayloadStep(s, data))
    decreases data
  {
    assert data == [data[0]] + data[1..];
    if |data| > 1 {
      PayloadJoins(s, [data[0]], data[1..]);
      PayloadSlice(PayloadStep(s, [data[0]]), data[1..]);
    } else {
      assert data[1..] == [] && [data[0]] == data;
    }
  }

  /** Header bytes up to the next point where the header length is looked at. */
  lemma {:induction false} HeaderSlice(s: State, data: seq<byte>)
    requires StateOk(s) && s.phase.InHeader? && data != []
    requires |s.phase.bytes| + |data| <= if |s.phase.bytes| < 9 then 9 else HeaderLength(s.phase.bytes)
    ensures ManyBytes(s, data) == HeaderStep(s.out, s.phase.bytes + data)
    decreases data
  {
    var h := s.phase.bytes;
    var first := h + [data[0]];
    assert first + data[1..] == h + data;
    if |data| == 1 {
      assert data[1..] == [] && first == h + data;
    } else if PrefixOk(first) {
      assert HeaderLength(first) == HeaderLength(h);
      HeaderSlice(State(InHeader(first), s.out), data[1..]);
    } else {
      assert !PrefixOk(h + data);
    }
  }

  // ---- the collector ----

  ghost predicate UnfoldTrace(k: int) {
    true
  }

  /** The calls made to the handler amount to these PES packets. */
  ghost predicate Traced(events: seq<Event>, out: seq<PES>) {
    forall k {:trigger UnfoldTrace(k)} :: UnfoldTrace(k) ==> Group(events) == Some(out)
  }

  class PESCollector {
    var active: bool
    var header: seq<byte>
    var headerLength: nat
    var payloadRemaining: int
    /** Everything sent to the handler. */
    var events: seq<Event>

    ghost var out: seq<PES>

    ghost function Current(): State
      reads this
    {
      State(if !active then Idle
            else if headerLength == 0 || |header| < headerLength then InHeader(header)
            else InPayload(payloadRemaining),
            out)
    }

    ghost predicate Valid()
      reads this
    {
      && Traced(events, out)
      && StateOk(Current())
      && (active ==> headerLength == HeaderLength(header))
      && (active && headerLength > 0 ==> payloadRemaining == PayloadLength(header) || |header| == headerLength)
      && (active && headerLength > 0 ==> |header| <= headerLength)
      && (!active ==> header == [] && headerLength == 0)
    }

    constructor ()
      ensures Valid() && Current() == State(Idle, []) && events == []
    {
      active, header, headerLength, payloadRemaining, events, out := false, [], 0, 0, [], [];
    }

    lemma TraceIs()
      requires Valid()
      ensures Group(events) == Some(out)
    {
      assert UnfoldTrace(0);
    }

    method Send(e: Event)
      requires Traced(events, out) && Handle(out, e).Some?
      modifies this`events, this`out
      ensures Traced(events, out) && Some(out) == Handle(old(out), e) && events == old(events) + [e]
    {
      assert UnfoldTrace(0);
      GroupAppend(events, e);
      events := events + [e];
      out := Handle(out, e).value;
    }

    method FinishPES() returns (err: Option<Error>)
      requires Valid() && active
      modifies this
      ensures match Finish(old(Current()))
        case Failed(e) => err == Some(e)
        case Ok(s) => err == None && Valid() && Current() == s
      ensures old(events) <= events
    {
      if headerLength == 0 || |header| < headerLength {
        return Some(HeaderIncomplete);
      }
      if payloadRemaining > 0 {
        return Some(PayloadIncomplete);
      }
      Close();
      return None;
    }

    method Close()
      requires Traced(events, out) && Open(out)
      modifies this
      ensures Valid() && Current() == State(Idle, EndLast(old(out)))
      ensures old(events) <= events
    {
      active, header, headerLength, payloadRemaining := false, [], 0, -1;
      Send(End);
    }

    /** consumeHeader: takes bytes up to the next decision about the header. */
    method ConsumeHeader(payload: seq<byte>) returns (n: nat, err: Option<Error>)
      requires Valid() && Current().phase.InHeader? && payload != []
      modifies this`header, this`headerLength, this`payloadRemaining
      ensures 0 < n <= |payload|
      ensures header == old(header) + payload[..n]
      ensures ManyBytes(old(Current()), payload[..n]) == HeaderStep(out, header)
      ensures err == if HeaderStep(out, header).Failed? then Some(HeaderStep(out, header).error) else None
      ensures err == None ==> headerLength == HeaderLength(header) && (headerLength > 0 ==> |header| <= headerLength)
      ensures err == None && headerLength > 0 ==> payloadRemaining == PayloadLength(header)
    {
      var needed := if headerLength > 0 then headerLength else 9;
      n := if |payload| < needed - |header| then |payload| else needed - |header|;
      HeaderSlice(Current(), payload[..n]);
      header := header + payload[..n];
      if |header| >= 3 && (header[0] != 0 || header[1] != 0 || header[2] != 1) {
        return n, Some(StartCodePrefixMissing);
      }
      if |header| < 9 {
        return n, None;
      }
      if headerLength == 0 {
        headerLength := 9 + header[8] as int;
        var packetLength := header[4] as int * 256 + header[5] as int;
        if packetLength == 0 {
          payloadRemaining := -1;
          return n, None;
        }
        payloadRemaining := packetLength + 6 - headerLength;
        if payloadRemaining < 0 {
          return n, Some(LengthShorterThanHeader);
        }
      }
      return n, None;
    }

    /** One round of the loop of Consume while a header is being collected. */
    method HeaderRound(payload: seq<byte>) returns (rest: seq<byte>, err: Option<Error>)
      requires Valid() && Current().phase.InHeader? && payload != []
      modifies this
      ensures |rest| < |payload|
      ensures err.Some? ==> ManyBytes(old(Current()), payload) == Failed(err.value)
      ensures err == None ==> Valid() && ManyBytes(old(Current()), payload) == ManyBytes(Current(), rest)
      ensures old(events) <= events
    {
      ghost var s := Current();
      var n;
      n, err := ConsumeHeader(payload);
      rest := payload[n..];
      assert payload == payload[..n] + rest;
      BytesConcat(s, payload[..n], rest);
      if err != None {
        return;
      }
      if headerLength == 0 || |header| < headerLength {
        assert Current() == State(InHeader(header), out);
        return;
      }
      Send(Header(header));
      if payloadRemaining == 0 {
        Close();
      }
    }

    /** One round of the loop of Consume while payload is expected. */
    method PayloadRound(payload: seq<byte>) returns (rest: seq<byte>)
      requires Valid() && Current().phase.InPayload? && payload != []
      modifies this
      ensures |rest| < |payload| && Valid()
      ensures ManyBytes(old(Current()), payload) == ManyBytes(Current(), rest)
      ensures old(events) <= events
    {
      ghost var s := Current();
      var n := |payload|;
      if payloadRemaining >= 0 && n > payloadRemaining {
        n := payloadRemaining;
      }
      rest := payload[n..];
      assert payload == payload[..n] + rest;
      BytesConcat(s, payload[..n], rest);
      PayloadSlice(s, payload[..n]);
      Send(Payload(payload[..n]));
      if payloadRemaining >= 0 {
        payloadRemaining := payloadRemaining - n;
        if payloadRemaining == 0 {
          Close();
        }
      }
    }

    /** Consumes one transport packet payload exactly as the definition does. */
    method ConsumePacket(pusi: bool, payload: seq<byte>) returns (err: Option<Error>)
      requires Valid()
      modifies this
      ensures match Consume(old(Current()), pusi, payload)
        case Failed(e) => err == Some(e)
        case Ok(s) => err == None && Valid() && Current() == s
      ensures old(events) <= events
    {
      err := None;
      if pusi {
        if active {
          err := FinishPES();
          if err != None {
            return;
          }
        }
        active, header, headerLength, payloadRemaining := true, [], 0, -1;
      }
      if !active {
        return;
      }
      ghost var start := Current();
      var rest := payload;
      while |rest| > 0
        invariant Valid() && err == None && ManyBytes(start, payload) == ManyBytes(Current(), rest)
        invariant old(events) <= events
        decreases |rest|
      {
        if !active {
          return Some(BytesAfterEnd);
        }
        if headerLength == 0 || |header| < headerLength {
          rest, err := HeaderRound(rest);
          if err != None {
            return;
          }
        } else {
          rest := PayloadRound(rest);
        }
      }
    }

    method Flush() returns (err: Option<Error>)
      requires Valid()
      modifies this
      ensures match Finish(old(Current()))
        case Failed(e) => err == Some(e)
        case Ok(s) => err == None && Valid() && Current() == s
      ensures old(events) <= events
    {
      if !active {
        return None;
      }
      err := FinishPES();
    }
  }
}
