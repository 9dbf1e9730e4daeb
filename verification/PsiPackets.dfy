/** PacketizePSISection of internal/go-astits/data_psi.go: a section goes back into the
  * transport packet it came from, which may have to give up adaptation field stuffing.
  */
module PsiPackets {
  import opened Bytes
  import opened Wrappers
  import opened AdaptationField
  import opened Packets
  import opened PsiCollector
  import opened PsiSections

  /** The payload: a pointer field of 0, the section, stuffing up to the given size. */
  function SectionPayload(encoded: seq<byte>, size: nat): seq<byte>
    requires |encoded| < size
  {
    [0] + encoded + Fill(size - 1 - |encoded|)
  }

  /** The adaptation field when the payload has to grow to `required` bytes. */
  function Shrunk(field: Option<Field>, required: nat): Option<Option<Field>> {
    var target := BODY - required;
    var minimum := if field.Some? && HasData(field.value) then BareSize(field.value) else 0;
    if target < minimum then None
    else if target == 0 then Some(None)
    else
      match (if field.None? then StuffingField(target) else WithSize(field.value, target))
      case None => None
      case Some(f) => Some(Some(f))
  }

  function Packetize(p: Packet, encoded: seq<byte>): Option<Packet> {
    var required := |encoded| + 1;
    var output := p.(hasPayload := true, pusi := true);
    if required > |p.payload| then
      match Shrunk(p.adaptation, required)
      case None => None
      case Some(field) => Some(output.(adaptation := field, payload := SectionPayload(encoded, required)))
    else Some(output.(payload := SectionPayload(encoded, |p.payload|)))
  }

  /** When it succeeds: the section fits beside the field's data, unless one byte would be
    * left over for a field that is there but empty. */
  lemma PacketizeSucceeds(p: Packet, encoded: seq<byte>)
    requires p.adaptation.Some? ==> NoWrap(p.adaptation.value)
    ensures Packetize(p, encoded).Some? <==>
      var required := |encoded| + 1;
      || required <= |p.payload|
      || (required == 184 && (p.adaptation.None? || Strip(p.adaptation.value) == EmptyField(0, false)))
      || (required < 184 && (p.adaptation.None? || |WriteField(Strip(p.adaptation.value))| <= 184 - required))
  {
    hide WriteField, BareSize, SectionPayload;
    if p.adaptation.Some? {
      BareOnWire(p.adaptation.value);
      WithSizeExact(p.adaptation.value, BODY - (|encoded| + 1));
    }
  }

  /** A PMT without streams, padded with a user defined descriptor of n bytes. */
  function Padded(n: nat): Syntax {
    Syntax(1, 0, true, 0, 0, PMT(1, 0x1FFF, [UserDefined(0x80, n, Zeros(n))], []))
  }

  function PaddedSection(n: nat): seq<byte> {
    WriteSection(Section(true, false, 1, None), Padded(n))
  }

  lemma PaddedLength(n: nat)
    requires 0 < n < 256
    ensures |PaddedSection(n)| == 18 + n
    ensures ParseSection(PaddedSection(n)).Parsed?
  {
    var x := Padded(n);
    var ds := x.pmt.descriptors;
    assert ds[1..] == [] && DescriptorsLength(ds) == 2 + n;
    SectionBack(Section(true, false, 1, None), x);
  }

  /** A full packet with a field that holds nothing but stuffing, and 84 bytes of payload. */
  function Stuffed(pid: nat): Packet {
    Packet(false, true, false, pid, 0, true, 0, Some(EmptyField(98, false)), Fill(84))
  }

  /** The failing case: a PMT of 182 bytes, and a field that holds stuffing only. One of 183 bytes
    * fits. */
  lemma OneByteLeft(pid: nat)
    ensures |PaddedSection(164)| == 182 && ParseSection(PaddedSection(164)).Parsed?
    ensures |PaddedSection(165)| == 183 && ParseSection(PaddedSection(165)).Parsed?
    ensures Used(Stuffed(pid)) == PACKET_SIZE
    ensures Packetize(Stuffed(pid), PaddedSection(164)).None? && Packetize(Stuffed(pid), PaddedSection(165)).Some?
  {
    hide PaddedSection, ParseSection;
    PaddedLength(164);
    PaddedLength(165);
    ByLength(pid, PaddedSection(164), PaddedSection(165));
  }

  lemma ByLength(pid: nat, fails: seq<byte>, fits: seq<byte>)
    requires |fails| == 182 && |fits| == 183
    ensures Used(Stuffed(pid)) == PACKET_SIZE
    ensures Packetize(Stuffed(pid), fails).None? && Packetize(Stuffed(pid), fits).Some?
  {
  }

  /** On success a packet that filled 188 bytes still does, its data-bearing field says the
    * same, and its payload is the section behind a pointer field, then stuffing. */
  lemma PacketizeExact(p: Packet, encoded: seq<byte>)
    requires Used(p) == PACKET_SIZE && Packetize(p, encoded).Some?
    requires p.adaptation.Some? ==> NoWrap(p.adaptation.value)
    ensures var r := Packetize(p, encoded).value;
      && Used(r) == PACKET_SIZE && Serialize(r).Some?
      && r.pusi && r.hasPayload && r.pid == p.pid && r.cc == p.cc
      && r.errorIndicator == p.errorIndicator && r.priority == p.priority && r.scrambling == p.scrambling
      && (p.adaptation.Some? && Strip(p.adaptation.value) != EmptyField(0, false) ==>
            r.adaptation.Some? && Strip(r.adaptation.value) == Strip(p.adaptation.value))
      && |encoded| < |r.payload| && r.payload[0] == 0 && r.payload[1..1 + |encoded|] == encoded
      && (forall i :: 1 + |encoded| <= i < |r.payload| ==> r.payload[i] == 0xFF)
  {
    var required := |encoded| + 1;
    if required > |p.payload| {
      var target := BODY - required;
      if target > 0 {
        if p.adaptation.None? {
          StuffingFieldExact(target);
        } else {
          WithSizeExact(p.adaptation.value, target);
        }
      }
    }
  }

  /** A section collector gets the section out of the packet again, whatever it held before. */
  lemma SectionComesOut(kept: seq<byte>, encoded: seq<byte>, size: nat)
    requires SectionOk(encoded) && |encoded| < size && kept == []
    ensures ConsumeOne(kept, true, SectionPayload(encoded, size)) == Sections([encoded], [])
  {
    var payload, fill := SectionPayload(encoded, size), Fill(size - 1 - |encoded|);
    assert payload[1..] == encoded + fill;
    assert Flatten([encoded]) == encoded + Flatten([]) == encoded;
    if fill == [] {
      assert encoded + fill == encoded;
      ScanWhole([encoded]);
    } else {
      assert fill == [STUFFING] + fill[1..];
      StuffingEnds([encoded], fill[1..]);
    }
  }
}
