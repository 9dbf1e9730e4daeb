/** A transport packet (section 2.4.3.2 of ISO/IEC 13818-1) as internal/go-astits/packet.go
  * writes and parses it. HasAdaptationField and the field it announces are one optional value.
  */
module Packets {
  import opened Bytes
  import opened Wrappers
  import opened AdaptationField

  const PACKET_SIZE := 188
  const SYNC_BYTE: byte := 0x47

  datatype Packet = Packet(
    errorIndicator: bool, pusi: bool, priority: bool, pid: nat, scrambling: nat, hasPayload: bool, cc: nat,
    adaptation: Option<Field>, payload: seq<byte>)

  // ---- writing ----

  /** writePacketHeader: the low 13, 2 and 4 bits of the numbers. */
  function WriteHeader(p: Packet): (r: seq<byte>)
    ensures |r| == 3
  {
    [Bit(p.errorIndicator) * 128 + Bit(p.pusi) * 64 + Bit(p.priority) * 32 + p.pid / 256 % 32,
     p.pid % 256,
     p.scrambling % 4 * 64 + Bit(p.adaptation.Some?) * 32 + Bit(p.hasPayload) * 16 + p.cc % 16]
  }

  function WriteOptional(a: Option<Field>): seq<byte> {
    if a.Some? then WriteField(a.value) else []
  }

  function Fill(n: nat): (r: seq<byte>)
    ensures |r| == n
  {
    seq(n, _ => 0xFF)
  }

  /** Bytes of header, adaptation field and payload. */
  function Used(p: Packet): nat {
    4 + |WriteOptional(p.adaptation)| + |p.payload|
  }

  /** writePacket with target size 188: too much payload is an error, too little is filled up. */
  function Serialize(p: Packet): (r: Option<seq<byte>>)
    ensures r.Some? <==> Used(p) <= PACKET_SIZE
    ensures r.Some? ==> |r.value| == PACKET_SIZE
  {
    if Used(p) > PACKET_SIZE then None
    else
      var body := [SYNC_BYTE] + WriteHeader(p) + WriteOptional(p.adaptation) + if p.hasPayload then p.payload else [];
      Some(body + Fill(PACKET_SIZE - |body|))
  }

  // ---- parsing ----

  /** parsePacket on at least 188 bytes, without a skip function: a longer packet has its extra
    * bytes between the sync byte and the header. */
  function Parse(d: seq<byte>): Option<Packet>
    requires |d| >= PACKET_SIZE
  {
    if d[0] != SYNC_BYTE then None
    else ParseHeader(d[|d| - PACKET_SIZE + 1..])
  }

  function ParseHeader(d: seq<byte>): Option<Packet>
    requires |d| >= 3
  {
    var empty := HeaderOf(d[0], d[1], d[2]);
    match Maybe(AnnouncesField(d[2]), d[3..], ReadField)
    case Fail => None
    case Got(field, rest) => Some(empty.(adaptation := field, payload := if empty.hasPayload then rest else []))
  }

  function HeaderOf(b0: byte, b1: byte, b2: byte): Packet {
    Packet(b0 as int / 128 == 1, b0 as int / 64 % 2 == 1, b0 as int / 32 % 2 == 1, b0 as int % 32 * 256 + b1 as int,
           b2 as int / 64, b2 as int / 16 % 2 == 1, b2 as int % 16, None, [])
  }

  predicate AnnouncesField(b2: byte) {
    b2 as int / 32 % 2 == 1
  }

  // ---- parsing undoes writing ----

  /** What every packet built or parsed by the program keeps to. */
  predicate PacketOk(p: Packet) {
    && p.pid < 0x2000 && p.scrambling < 4 && p.cc < 16
    && (p.adaptation.Some? ==> FieldOk(p.adaptation.value) && Fits(p.adaptation.value))
    && (!p.hasPayload ==> p.payload == [])
  }

  lemma FirstByte(a: bool, b: bool, c: bool, n: nat)
    requires n < 32
    ensures var v := Bit(a) * 128 + Bit(b) * 64 + Bit(c) * 32 + n;
      (v / 128 == 1 <==> a) && (v / 64 % 2 == 1 <==> b) && (v / 32 % 2 == 1 <==> c) && v % 32 == n
  {
  }

  lemma ThirdByte(scrambling: nat, a: bool, b: bool, n: nat)
    requires scrambling < 4 && n < 16
    ensures var v := scrambling * 64 + Bit(a) * 32 + Bit(b) * 16 + n;
      v / 64 == scrambling && (v / 32 % 2 == 1 <==> a) && (v / 16 % 2 == 1 <==> b) && v % 16 == n
  {
  }

  lemma HeaderFields(p: Packet)
    requires p.pid < 0x2000 && p.scrambling < 4 && p.cc < 16
    ensures var h := WriteHeader(p);
      HeaderOf(h[0], h[1], h[2]) == p.(adaptation := None, payload := []) && AnnouncesField(h[2]) == p.adaptation.Some?
  {
    LeadByte(p);
    FlagByte(p);
    var h := WriteHeader(p);
    HeaderFrom(p, h[0], h[1], h[2]);
  }

  lemma HeaderFrom(p: Packet, b0: byte, b1: byte, b2: byte)
    requires b0 as int / 128 == 1 <==> p.errorIndicator
    requires b0 as int / 64 % 2 == 1 <==> p.pusi
    requires b0 as int / 32 % 2 == 1 <==> p.priority
    requires b0 as int % 32 * 256 + b1 as int == p.pid
    requires b2 as int / 64 == p.scrambling && b2 as int % 16 == p.cc
    requires b2 as int / 16 % 2 == 1 <==> p.hasPayload
    ensures HeaderOf(b0, b1, b2) == p.(adaptation := None, payload := [])
  {
  }

  lemma LeadByte(p: Packet)
    requires p.pid < 0x2000
    ensures var b0: int, b1: int := WriteHeader(p)[0], WriteHeader(p)[1];
      && (b0 / 128 == 1 <==> p.errorIndicator) && (b0 / 64 % 2 == 1 <==> p.pusi)
      && (b0 / 32 % 2 == 1 <==> p.priority) && b0 % 32 * 256 + b1 == p.pid
  {
    Halves(p.pid);
    FirstByte(p.errorIndicator, p.pusi, p.priority, p.pid / 256);
  }

  lemma FlagByte(p: Packet)
    requires p.scrambling < 4 && p.cc < 16
    ensures var b2: int := WriteHeader(p)[2];
      && b2 / 64 == p.scrambling && (b2 / 32 % 2 == 1 <==> p.adaptation.Some?)
      && (b2 / 16 % 2 == 1 <==> p.hasPayload) && b2 % 16 == p.cc
  {
    ThirdByte(p.scrambling, p.adaptation.Some?, p.hasPayload, p.cc);
  }

  lemma Halves(pid: nat)
    requires pid < 0x2000
    ensures pid / 256 < 32 && pid / 256 % 32 == pid / 256 && pid / 256 * 256 + pid % 256 == pid
  {
  }

  lemma HeaderBack(h: seq<byte>, empty: Packet, field: Option<Field>, d: seq<byte>, rest: seq<byte>)
    requires |h| == 3 && HeaderOf(h[0], h[1], h[2]) == empty && AnnouncesField(h[2]) == field.Some?
    requires Maybe(field.Some?, d, ReadField) == Got(field, rest)
    ensures ParseHeader(h + d) == Some(empty.(adaptation := field, payload := if empty.hasPayload then rest else []))
  {
    assert (h + d)[3..] == d;
  }

  lemma OptionalBack(a: Option<Field>, rest: seq<byte>)
    requires a.Some? ==> FieldOk(a.value) && Fits(a.value)
    ensures Maybe(a.Some?, WriteOptional(a) + rest, ReadField) == Got(a, rest)
  {
    if a.Some? {
      FieldBack(a.value, rest);
    } else {
      assert [] + rest == rest;
    }
  }

  lemma BodyBytes(sync: byte, header: seq<byte>, field: seq<byte>, payload: seq<byte>, fill: seq<byte>)
    ensures ([sync] + header + field + payload + fill)[0] == sync
    ensures ([sync] + header + field + payload + fill)[1..] == header + (field + (payload + fill))
  {
  }

  /** A packet comes back as it was, but for the filling, which is taken for payload. */
  lemma PacketBack(p: Packet)
    requires PacketOk(p) && Serialize(p).Some?
    ensures Parse(Serialize(p).value)
      == Some(if p.hasPayload then p.(payload := p.payload + Fill(PACKET_SIZE - Used(p))) else p)
  {
    var rest := p.payload + Fill(PACKET_SIZE - Used(p));
    OptionalBack(p.adaptation, rest);
    HeaderFields(p);
    HeaderBack(WriteHeader(p), p.(adaptation := None, payload := []), p.adaptation, WriteOptional(p.adaptation)
      + rest, rest);
    ParseSerialized(p, rest);
  }

  lemma ParseSerialized(p: Packet, rest: seq<byte>)
    requires PacketOk(p) && Serialize(p).Some? && rest == p.payload + Fill(PACKET_SIZE - Used(p))
    ensures Parse(Serialize(p).value) == ParseHeader(WriteHeader(p) + (WriteOptional(p.adaptation) + rest))
  {
    BodyBytes(SYNC_BYTE, WriteHeader(p), WriteOptional(p.adaptation), p.payload, Fill(PACKET_SIZE - Used(p)));
  }

  /** A packet with a payload survives writing and parsing exactly if no filling was needed. */
  lemma PacketRoundTrip(p: Packet)
    requires PacketOk(p) && Serialize(p).Some? && p.hasPayload
    ensures Parse(Serialize(p).value) == Some(p) <==> Used(p) == PACKET_SIZE
  {
    PacketBack(p);
    if Used(p) == PACKET_SIZE {
      assert p.payload + Fill(0) == p.payload;
    }
  }
}
