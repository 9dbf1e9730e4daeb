/** What a run of transport packets of one PID carries: PES units cut into payloads,
  * adaptation fields by the PES they travel with, and continuity counters.
  */
module Carriage {
  import opened Bytes
  import opened Wrappers
  import opened PesFraming
  import opened AdaptationField
  import opened Packets

  // ---- grouping by start flags ----

  datatype Part<T> = Part(start: bool, items: seq<T>)

  /** A start flag opens a new group, anything else continues the last one. */
  function Extend<T>(groups: seq<seq<T>>, p: Part<T>): (r: seq<seq<T>>)
    requires groups != []
    ensures r != []
  {
    if p.start then groups + [p.items] else groups[|groups| - 1 := groups[|groups| - 1] + p.items]
  }

  /** Group 0 is what precedes the first start flag. */
  function Grouped<T>(parts: seq<Part<T>>): (r: seq<seq<T>>)
    ensures r != []
    decreases |parts|
  {
    if parts == [] then [[]] else Extend(Grouped(parts[..|parts| - 1]), parts[|parts| - 1])
  }

  lemma GroupedSnoc<T>(parts: seq<Part<T>>, p: Part<T>)
    ensures Grouped(parts + [p]) == Extend(Grouped(parts), p)
  {
    assert (parts + [p])[..|parts|] == parts;
  }

  /** A part may arrive in two pieces. */
  lemma ExtendTwice<T>(groups: seq<seq<T>>, start: bool, a: seq<T>, b: seq<T>)
    requires groups != []
    ensures Extend(Extend(groups, Part(start, a)), Part(false, b)) == Extend(groups, Part(start, a + b))
  {
    if !start {
      ConcatAssociates(groups[|groups| - 1], a, b);
    }
  }

  lemma ExtendNothing<T>(groups: seq<seq<T>>)
    requires groups != []
    ensures Extend(groups, Part(false, [])) == groups
  {
    assert groups[|groups| - 1] + [] == groups[|groups| - 1];
  }

  /** The groups after the first, as a PES collector sees them. */
  lemma {:induction false} GroupedReassembles(parts: seq<Part<byte>>)
    requires Grouped(parts)[0] == []
    ensures Reassemble(ChunksOf(parts)) == Grouped(parts)[1..]
    decreases |parts|
  {
    if parts != [] {
      var n := |parts| - 1;
      var before := Grouped(parts[..n]);
      assert ChunksOf(parts)[..n] == ChunksOf(parts[..n]);
      assert |before| == 1 && !parts[n].start ==> Grouped(parts)[0] == before[0] + parts[n].items;
      GroupedReassembles(parts[..n]);
    }
  }

  function ChunksOf(parts: seq<Part<byte>>): (r: seq<Chunk>)
    ensures |r| == |parts|
  {
    seq(|parts|, i requires 0 <= i < |parts| => Chunk(parts[i].start, parts[i].items))
  }

  // ---- packets ----

  function PayloadPart(p: Packet): Part<byte> {
    Part(p.pusi, p.payload)
  }

  function FieldPart(p: Packet): Part<Field> {
    Part(p.pusi, Meaningful(p.adaptation))
  }

  /** The field without stuffing, if there is anything else in it. */
  function Meaningful(a: Option<Field>): seq<Field> {
    if a.Some? && Strip(a.value) != EmptyField(0, false) then [Strip(a.value)] else []
  }

  function PayloadParts(packets: seq<Packet>): (r: seq<Part<byte>>)
    ensures |r| == |packets|
  {
    seq(|packets|, i requires 0 <= i < |packets| => PayloadPart(packets[i]))
  }

  function FieldParts(packets: seq<Packet>): (r: seq<Part<Field>>)
    ensures |r| == |packets|
  {
    seq(|packets|, i requires 0 <= i < |packets| => FieldPart(packets[i]))
  }

  /** The bytes of each PES: unit k+1 starts with the k-th PUSI packet. */
  function Units(packets: seq<Packet>): (r: seq<seq<byte>>)
    ensures r != []
  {
    Grouped(PayloadParts(packets))
  }

  /** The adaptation fields of each PES, in order. */
  function Fields(packets: seq<Packet>): (r: seq<seq<Field>>)
    ensures r != []
  {
    Grouped(FieldParts(packets))
  }

  /** The field of each packet that starts a PES. */
  function Starts(packets: seq<Packet>): seq<seq<Field>>
    decreases |packets|
  {
    if packets == [] then []
    else
      var n := |packets| - 1;
      Starts(packets[..n]) + if packets[n].pusi then [Meaningful(packets[n].adaptation)] else []
  }

  lemma StartsSnoc(packets: seq<Packet>, p: Packet)
    ensures Starts(packets + [p]) == Starts(packets) + if p.pusi then [Meaningful(p.adaptation)] else []
  {
    assert (packets + [p])[..|packets|] == packets;
  }

  /** Every PES starts with the field promised for it, if there is one. */
  ghost predicate StartsKept(actual: seq<seq<Field>>, promised: seq<seq<Field>>) {
    && |actual| == |promised|
    && forall k :: 0 <= k < |actual| && promised[k] != [] ==> actual[k] == promised[k]
  }

  lemma UnitsSnoc(packets: seq<Packet>, p: Packet)
    ensures Units(packets + [p]) == Extend(Units(packets), PayloadPart(p))
    ensures Fields(packets + [p]) == Extend(Fields(packets), FieldPart(p))
  {
    assert PayloadParts(packets + [p]) == PayloadParts(packets) + [PayloadPart(p)];
    assert FieldParts(packets + [p]) == FieldParts(packets) + [FieldPart(p)];
    GroupedSnoc(PayloadParts(packets), PayloadPart(p));
    GroupedSnoc(FieldParts(packets), FieldPart(p));
  }

  // ---- continuity counters (section 2.4.3.3 of ISO/IEC 13818-1) ----

  /** The counter the next payload packet takes after these. */
  function NextCounter(start: nat, packets: seq<Packet>): nat
    decreases |packets|
  {
    if packets == [] then start
    else
      var n := |packets| - 1;
      var before := NextCounter(start, packets[..n]);
      if packets[n].hasPayload then (before + 1) % 16 else before
  }

  /** A packet without payload repeats the counter before it. */
  predicate Counted(start: nat, packets: seq<Packet>)
    decreases |packets|
  {
    packets == [] || (
      var n := |packets| - 1;
      var before := NextCounter(start, packets[..n]);
      Counted(start, packets[..n]) && packets[n].cc == if packets[n].hasPayload then before else (before + 15) % 16)
  }

  function PayloadPackets(packets: seq<Packet>): nat
    decreases |packets|
  {
    if packets == [] then 0
    else PayloadPackets(packets[..|packets| - 1]) + if packets[|packets| - 1].hasPayload then 1 else 0
  }

  lemma NextModulo(n: nat)
    ensures (n % 16 + 1) % 16 == (n + 1) % 16
  {
  }

  lemma {:induction false} NextCounterCounts(start: nat, packets: seq<Packet>)
    requires start < 16
    ensures NextCounter(start, packets) == (start + PayloadPackets(packets)) % 16
    decreases |packets|
  {
    if packets != [] {
      NextCounterCounts(start, packets[..|packets| - 1]);
      NextModulo(start + PayloadPackets(packets[..|packets| - 1]));
    }
  }

  /** The k-th payload packet carries start + k, and a packet without payload what the
    * payload packet before it carried. */
  lemma {:induction false} CounterValues(start: nat, packets: seq<Packet>, i: nat)
    requires start < 16 && Counted(start, packets) && i < |packets|
    ensures packets[i].cc
      == (start + PayloadPackets(packets[..i]) + if packets[i].hasPayload then 0 else 15) % 16
    decreases |packets|
  {
    var n := |packets| - 1;
    if i == n {
      NextCounterCounts(start, packets[..n]);
    } else {
      CounterValues(start, packets[..n], i);
      assert packets[..n][..i] == packets[..i];
    }
  }

  lemma CountedSnoc(start: nat, packets: seq<Packet>, p: Packet)
    requires Counted(start, packets)
    requires p.cc == if p.hasPayload then NextCounter(start, packets) else (NextCounter(start, packets) + 15) % 16
    ensures Counted(start, packets + [p])
    ensures NextCounter(start, packets + [p])
      == if p.hasPayload then (NextCounter(start, packets) + 1) % 16 else NextCounter(start, packets)
  {
    assert (packets + [p])[..|packets|] == packets;
  }
}
