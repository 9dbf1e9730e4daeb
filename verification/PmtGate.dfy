/** ts/pmt_transformer.go: PMT packets are held until every supported stream of the first
  * PMT has said how its entry is to be changed.
  *
  * The callback that takes finished slots is the list `completed`; it never fails here.
  */
module PmtGate {
  import opened Bytes
  import opened Wrappers
  import opened AdaptationField
  import opened Packets
  import opened AlignerModel
  import opened PsiCollector
  import opened PsiSections
  import opened PsiPackets

  const PROGRAM := 1

  type Patch = ElementaryStream -> ElementaryStream

  /** None is a stream that has not signalled yet. */
  type Patches = map<nat, Option<Patch>>

  // ---- what is done to a section ----

  predicate Supported(streamType: byte, inputEncrypted: bool) {
    streamType == 0x1B || (!inputEncrypted && streamType in {0x0F, 0x81, 0x87})
  }

  predicate AllSignalled(patches: Patches) {
    forall pid | pid in patches :: patches[pid].Some?
  }

  function PatchStream(s: ElementaryStream, patches: Patches): ElementaryStream
    requires AllSignalled(patches)
  {
    if s.pid in patches then patches[s.pid].value(s) else s
  }

  /** The first n streams are patched. */
  function PatchStreams(ss: seq<ElementaryStream>, patches: Patches, n: nat): (r: seq<ElementaryStream>)
    requires AllSignalled(patches) && n <= |ss|
    ensures |r| == |ss|
  {
    seq(|ss|, i requires 0 <= i < |ss| => if i < n then PatchStream(ss[i], patches) else ss[i])
  }

  function WithStreams(x: Syntax, ss: seq<ElementaryStream>): Syntax {
    x.(pmt := x.pmt.(streams := ss))
  }

  /** All streams patched, and a new version if there was anything to patch. */
  function PatchSyntax(x: Syntax, patches: Patches): Syntax
    requires AllSignalled(patches)
  {
    var y := WithStreams(x, PatchStreams(x.pmt.streams, patches, |x.pmt.streams|));
    if patches == map[] then y else y.(version := (x.version + 1) % 32)
  }

  lemma NothingToPatch(x: Syntax)
    ensures PatchSyntax(x, map[]) == x
  {
    assert PatchStreams(x.pmt.streams, map[], |x.pmt.streams|) == x.pmt.streams;
  }

  /** What patching changes: each entry with a patch becomes what that makes of it, and if there is any
    * patch at all the version goes up by one, after 31 to 0. Everything else stays. */
  lemma PatchedExactly(x: Syntax, patches: Patches)
    requires AllSignalled(patches)
    ensures var y := PatchSyntax(x, patches);
      && |y.pmt.streams| == |x.pmt.streams|
      && (forall i :: 0 <= i < |x.pmt.streams| ==>
            var s := x.pmt.streams[i];
            y.pmt.streams[i] == if s.pid in patches then patches[s.pid].value(s) else s)
      && y.pmt.(streams := x.pmt.streams) == x.pmt
      && y.(pmt := x.pmt, version := x.version) == x
      && (patches == map[] ==> y.version == x.version)
      && (patches != map[] && x.version < 31 ==> y.version == x.version + 1)
      && (patches != map[] && x.version == 31 ==> y.version == 0)
  {
  }

  /** A PMT as it arrived. */
  datatype Arrival = Arrival(token: nat, packet: Packet, section: Section, syntax: Syntax)

  /** The packet that goes out for it, if the section still fits. */
  function Outgoing(a: Arrival, patches: Patches): Option<Packet>
    requires AllSignalled(patches)
  {
    if patches == map[] then Some(a.packet)
    else Packetize(a.packet, WriteSection(a.section, PatchSyntax(a.syntax, patches)))
  }

  // ---- collecting ----

  datatype Collected = BadPMT | NoPMT | Found(section: Section, syntax: Syntax)

  /** PMTCollector: the first current section of the program; every section must be a PMT. */
  function FindProgram(sections: seq<seq<byte>>): Collected {
    if sections == [] then NoPMT
    else match ParseSection(sections[0])
      case Malformed => BadPMT
      case OtherTable => BadPMT
      case Parsed(s) =>
        if s.syntax.None? then BadPMT
        else if s.syntax.value.current && s.syntax.value.pmt.programNumber == PROGRAM then Found(s, s.syntax.value)
        else FindProgram(sections[1..])
  }

  predicate AllStuffing(d: seq<byte>) {
    forall i :: 0 <= i < |d| ==> d[i] == STUFFING
  }

  /** A whole section, and nothing but stuffing behind it. */
  predicate OneSection(payload: seq<byte>) {
    && |payload| >= 4 && payload[0] == 0
    && 4 + SectionLength(payload[1..]) <= |payload|
    && AllStuffing(payload[4 + SectionLength(payload[1..])..])
  }

  /** collectPMT, for a section collector that holds nothing. */
  function CollectPMT(p: Packet): Collected {
    if !p.hasPayload then NoPMT
    else if !p.pusi || !OneSection(p.payload) then BadPMT
    else match ConsumeOne([], true, p.payload)
      case Invalid => BadPMT
      case Sections(sections, _) => FindProgram(sections)
  }

  ghost predicate UnfoldCollects(k: int) { true }

  /** What collectPMT makes of a packet. Sealed. */
  ghost predicate CollectsAs(p: Packet, c: Collected) {
    forall k {:trigger UnfoldCollects(k)} :: UnfoldCollects(k) ==> CollectPMT(p) == c
  }

  lemma {:induction false} StuffingIsNothing(d: seq<byte>)
    requires AllStuffing(d)
    ensures Scan(d) == Sections([], [])
  {
  }

  /** The section collector never keeps anything from one PMT packet to the next. */
  lemma NothingKept(payload: seq<byte>)
    requires OneSection(payload) && ConsumeOne([], true, payload).Sections?
    ensures ConsumeOne([], true, payload).rest == []
  {
    var d := payload[1..];
    var n := 3 + SectionLength(d);
    assert d[n..] == payload[1 + n..];
    StuffingIsNothing(d[n..]);
  }

  /** The payload is a pointer field of 0, one section as long as its 12 bits of length say, and stuffing. */
  predicate Framed(d: seq<byte>) {
    && |d| >= 4 && d[0] == 0
    && var n := (d[2] as int * 256 + d[3] as int) % 4096;
    4 + n <= |d| && forall i :: 4 + n <= i < |d| ==> d[i] == 0xFF
  }

  /** What comes of a packet: nothing without payload, an error unless it carries one whole section that
    * is a PMT, and the PMT if it is the current one of program 1. A section that begins with 0xFF
    * is stuffing. */
  lemma CollectedExactly(p: Packet)
    ensures var d := p.payload;
      CollectPMT(p) ==
        if !p.hasPayload then NoPMT
        else if !p.pusi || !Framed(d) then BadPMT
        else if d[1] == 0xFF then NoPMT
        else
          var n := (d[2] as int * 256 + d[3] as int) % 4096;
          var parsed := ParseSection(d[1..4 + n]);
          if n > 1021 || !parsed.Parsed? || parsed.section.syntax.None? then BadPMT
          else
            var x := parsed.section.syntax.value;
            if x.current && x.pmt.programNumber == 1 then Found(parsed.section, x) else NoPMT
  {
    hide ParseSection;
    var d := p.payload;
    if |d| >= 4 {
      FramedIs(d);
      if OneSection(d) {
        OnlySection(d);
        OneProgram(d[1..4 + SectionLength(d[1..])]);
      }
    }
  }

  lemma OneProgram(s: seq<byte>)
    ensures FindProgram([]) == NoPMT
    ensures FindProgram([s]) ==
      var parsed := ParseSection(s);
      if !parsed.Parsed? || parsed.section.syntax.None? then BadPMT
      else
        var x := parsed.section.syntax.value;
        if x.current && x.pmt.programNumber == 1 then Found(parsed.section, x) else NoPMT
  {
    hide ParseSection;
    assert [s][1..] == [];
  }

  lemma FramedIs(d: seq<byte>)
    requires |d| >= 4
    ensures (d[2] as int * 256 + d[3] as int) % 4096 == SectionLength(d[1..])
    ensures OneSection(d) <==> Framed(d)
  {
    TwelveBits(d[2], d[3]);
    var n := SectionLength(d[1..]);
    if 4 + n <= |d| {
      var tail := d[4 + n..];
      assert forall i {:trigger tail[i]} :: 0 <= i < |tail| ==> tail[i] == d[4 + n + i];
      assert AllStuffing(d[4 + n..]) ==> forall i :: 4 + n <= i < |d| ==> d[i] == d[4 + n..][i - 4 - n];
    }
  }

  /** The collector sees the one section. */
  lemma OnlySection(d: seq<byte>)
    requires OneSection(d)
    ensures var n := SectionLength(d[1..]);
      ConsumeOne([], true, d) ==
        if d[1] == STUFFING then Sections([], []) else if n > MAX_LENGTH then Invalid
        else Sections([d[1..4 + n]], [])
  {
    var n, rest := SectionLength(d[1..]), d[1..];
    assert rest[3 + n..] == d[4 + n..] && rest[..3 + n] == d[1..4 + n];
    StuffingIsNothing(rest[3 + n..]);
  }

  // ---- what a receiver makes of a patched PMT ----

  /** The section that is written for a patched arrival, as a parser returns it. */
  function Patched(a: Arrival, patches: Patches): Section
    requires AllSignalled(patches)
  {
    var y := PatchSyntax(a.syntax, patches);
    a.section.(length := ComputedSectionLength(y.pmt), syntax := Some(RelengthSyntax(y)))
  }

  lemma WrittenSectionOk(s: Section, x: Syntax)
    requires s.length > 0 && SyntaxOk(x) && ComputedSectionLength(x.pmt) <= MAX_LENGTH
    ensures SectionOk(WriteSection(s, x))
  {
    var header := PsiSections.WriteHeader(s, ComputedSectionLength(x.pmt));
    SectionBack(s, x);
    HeaderBits(s, ComputedSectionLength(x.pmt));
    assert WriteSection(s, x)[..3] == header by { assert WriteBody(s, x)[..3] == header; }
    assert forall i :: 0 <= i < 3 ==> WriteSection(s, x)[i] == WriteSection(s, x)[..3][i];
  }

  lemma WholePayload(encoded: seq<byte>, size: nat)
    requires SectionOk(encoded) && |encoded| < size
    ensures OneSection(SectionPayload(encoded, size))
  {
    var payload := SectionPayload(encoded, size);
    assert payload[1..][..|encoded|] == encoded;
    assert payload[1..][1] == encoded[1] && payload[1..][2] == encoded[2];
    assert payload[1 + |encoded|..] == Fill(size - 1 - |encoded|);
  }

  /** Collecting a packet that carries a PMT of the program gives it. */
  lemma SectionCollected(p: Packet, s: Section, x: Syntax)
    requires p.hasPayload && p.pusi && s.length > 0 && SyntaxOk(x) && ComputedSectionLength(x.pmt) <= MAX_LENGTH
    requires x.current && x.pmt.programNumber == 1 && |WriteSection(s, x)| < |p.payload|
    requires p.payload == SectionPayload(WriteSection(s, x), |p.payload|)
    ensures CollectPMT(p) == Found(
      s.(length := ComputedSectionLength(x.pmt), syntax := Some(RelengthSyntax(x))), RelengthSyntax(x))
  {
    var encoded := WriteSection(s, x);
    WrittenSectionOk(s, x);
    WholePayload(encoded, |p.payload|);
    SectionComesOut([], encoded, |p.payload|);
    SectionBack(s, x);
    var y := RelengthSyntax(x);
    assert FindProgram([encoded]) == Found(s.(length := ComputedSectionLength(x.pmt), syntax := Some(y)), y);
  }

  /** Collecting the packet that goes out gives the patched section. */
  lemma PatchedArrives(a: Arrival, patches: Patches)
    requires AllSignalled(patches) && patches != map[] && Outgoing(a, patches).Some?
    requires a.section.length > 0 && SyntaxOk(PatchSyntax(a.syntax, patches))
    requires a.syntax.current && a.syntax.pmt.programNumber == 1
    requires ComputedSectionLength(PatchSyntax(a.syntax, patches).pmt) <= MAX_LENGTH
    ensures CollectPMT(Outgoing(a, patches).value) ==
      Found(Patched(a, patches), RelengthSyntax(PatchSyntax(a.syntax, patches)))
  {
    SectionCollected(Outgoing(a, patches).value, a.section, PatchSyntax(a.syntax, patches));
  }

  // ---- the gate ----

  class SectionObject {
    const section: Section
    /** Patched in place. */
    var syntax: Syntax

    constructor (section: Section, syntax: Syntax)
      ensures this.section == section && this.syntax == syntax
    {
      this.section, this.syntax := section, syntax;
    }
  }

  datatype PendingPMT = PendingPMT(token: nat, packet: Packet, section: SectionObject)

  ghost predicate Same(p: PendingPMT, a: Arrival)
    reads p.section
  {
    p.token == a.token && p.packet == a.packet && p.section.section == a.section && p.section.syntax == a.syntax
  }

  ghost function Objects(pending: seq<PendingPMT>): set<object> {
    set i | 0 <= i < |pending| :: pending[i].section
  }

  /** The PIDs that have to signal: supported streams of the first PMT. */
  ghost predicate Awaits(first: Arrival, inputEncrypted: bool, pid: nat) {
    exists i :: 0 <= i < |first.syntax.pmt.streams| && first.syntax.pmt.streams[i].pid == pid
      && Supported(first.syntax.pmt.streams[i].streamType, inputEncrypted)
  }

  /** After the first PMT: its supported streams are to signal, and none has. */
  ghost predicate Awaiting(patches: Patches, first: Arrival, inputEncrypted: bool) {
    forall pid :: (pid in patches <==> Awaits(first, inputEncrypted, pid)) && (pid in patches ==> patches[pid].None?)
  }

  ghost predicate Covers(patches: Patches, first: Arrival, inputEncrypted: bool) {
    forall pid :: Awaits(first, inputEncrypted, pid) ==> pid in patches
  }

  /** A PMT that has been released, with the patches of that moment. */
  ghost predicate ReleasedAs(slot: CompletedSlot, a: Arrival, patches: Patches, first: Arrival, inputEncrypted: bool) {
    && AllSignalled(patches) && Covers(patches, first, inputEncrypted)
    && Outgoing(a, patches).Some? && slot == CompletedSlot(a.token, [Outgoing(a, patches).value])
  }

  ghost predicate UnfoldReleased(k: int) { true }

  /** The first PMTs that arrived have been released, each once. Sealed. */
  ghost predicate AllReleased(released: seq<CompletedSlot>, arrived: seq<Arrival>, used: seq<Patches>,
    inputEncrypted: bool) {
    && |released| == |used| <= |arrived|
    && forall n {:trigger UnfoldReleased(n)} :: UnfoldReleased(n) ==>
      forall k :: 0 <= k < |released| ==> ReleasedAs(released[k], arrived[k], used[k], arrived[0], inputEncrypted)
  }

  lemma OneMoreReleased(released: seq<CompletedSlot>, arrived: seq<Arrival>, used: seq<Patches>, inputEncrypted: bool,
                        slot: CompletedSlot, patches: Patches)
    requires AllReleased(released, arrived, used, inputEncrypted) && |released| < |arrived|
    requires ReleasedAs(slot, arrived[|released|], patches, arrived[0], inputEncrypted)
    ensures AllReleased(released + [slot], arrived, used + [patches], inputEncrypted)
  {
    assert UnfoldReleased(0);
  }

  lemma OneMoreArrived(released: seq<CompletedSlot>, arrived: seq<Arrival>, used: seq<Patches>,
    inputEncrypted: bool, a: Arrival)
    requires AllReleased(released, arrived, used, inputEncrypted)
    ensures AllReleased(released, arrived + [a], used, inputEncrypted)
  {
    assert UnfoldReleased(0);
  }

  /** Released PMTs are the first arrivals. */
  lemma ReleasedInOrder(released: seq<CompletedSlot>, arrived: seq<Arrival>, used: seq<Patches>, inputEncrypted: bool)
    requires AllReleased(released, arrived, used, inputEncrypted)
    ensures SlotTokens(released) == ArrivedTokens(arrived[..|released|])
    ensures forall k :: 0 <= k < |released| ==> ReleasedAs(released[k], arrived[k], used[k], arrived[0], inputEncrypted)
  {
    assert UnfoldReleased(0);
  }

  function ArrivedTokens(arrived: seq<Arrival>): (r: seq<nat>)
    ensures |r| == |arrived|
  {
    seq(|arrived|, i requires 0 <= i < |arrived| => arrived[i].token)
  }

  function PendingTokens(pending: seq<PendingPMT>): (r: seq<nat>)
    ensures |r| == |pending|
  {
    seq(|pending|, i requires 0 <= i < |pending| => pending[i].token)
  }

  ghost predicate UnfoldMisfit(k: int) { true }

  /** The PMT no longer fits its packet when it is patched. Sealed. */
  ghost predicate Misfit(a: Arrival, patches: Patches) {
    forall k {:trigger UnfoldMisfit(k)} :: UnfoldMisfit(k) ==> AllSignalled(patches) && Outgoing(a, patches).None?
  }

  ghost predicate SomeMisfit(arrived: seq<Arrival>, from: nat, patches: Patches) {
    exists k :: from <= k < |arrived| && Misfit(arrived[k], patches)
  }

  /** The PMTs from number n on were released with these patches. */
  ghost predicate UsedFrom(used: seq<Patches>, n: nat, patches: Patches) {
    forall k :: n <= k < |used| ==> used[k] == patches
  }

  /** The first PMT is never a misfit: nothing is patched while nobody has signalled. */
  lemma FirstFits(a: Arrival, patches: Patches, inputEncrypted: bool)
    requires Awaiting(patches, a, inputEncrypted)
    ensures !SomeMisfit([a], 0, patches)
  {
    assert UnfoldMisfit(0);
  }

  /** When all PMTs from number n on have been released, none of them was a misfit. */
  lemma NeverReleased(released: seq<CompletedSlot>, arrived: seq<Arrival>, used: seq<Patches>,
    inputEncrypted: bool, n: nat,
                      patches: Patches)
    requires AllReleased(released, arrived, used, inputEncrypted) && |released| == |arrived|
      && UsedFrom(used, n, patches)
    ensures !SomeMisfit(arrived, n, patches)
  {
    assert UnfoldReleased(0) && UnfoldMisfit(0);
    forall k | n <= k < |arrived| ensures !Misfit(arrived[k], patches) {
      assert ReleasedAs(released[k], arrived[k], used[k], arrived[0], inputEncrypted);
    }
  }

  lemma TailGrows<T>(a: seq<T>, b: seq<T>, base: nat)
    requires base <= |a| && a <= b
    ensures b[base..] == a[base..] + b[|a|..]
  {
  }

  class PMTTransformer {
    const inputEncrypted: bool
    const collector: SectionCollector
    var completed: seq<CompletedSlot>
    var patches: Patches
    var pending: seq<PendingPMT>
    var initialized: bool

    /** The PMTs that have arrived; those that were released, and the patches used for each. */
    ghost var arrived: seq<Arrival>
    ghost var released: seq<CompletedSlot>
    ghost var used: seq<Patches>

    /** The pending PMTs are the last ones that arrived, as they arrived. */
    ghost predicate Holding()
      reads this, Objects(pending)
    {
      && |released| + |pending| == |arrived|
      && (forall i, j :: 0 <= i < j < |pending| ==> pending[i].section != pending[j].section)
      && forall i :: 0 <= i < |pending| ==> Same(pending[i], arrived[|released| + i])
    }

    ghost predicate Released()
      reads this
    {
      AllReleased(released, arrived, used, inputEncrypted)
    }

    ghost predicate Inv()
      reads this, Objects(pending)
    {
      && Holding() && Released()
      && (initialized <==> arrived != [])
      && (arrived != [] ==> Covers(patches, arrived[0], inputEncrypted))
      && (released != [] ==> AllSignalled(patches))
    }

    /** Between the calls a PMT is held only while some stream has not signalled. */
    ghost predicate Valid()
      reads this, collector, Objects(pending)
    {
      Inv() && collector.buf == [] && (pending != [] ==> !AllSignalled(patches))
    }

    constructor (inputEncrypted: bool)
      ensures Valid() && arrived == [] && completed == [] && released == [] && fresh(collector) && patches == map[]
      ensures pending == []
      ensures this.inputEncrypted == inputEncrypted
    {
      this.inputEncrypted := inputEncrypted;
      collector := new SectionCollector();
      completed, patches, pending, initialized := [], map[], [], false;
      arrived, released, used := [], [], [];
    }

    /** The inner loop of completeReady: every stream of one section, in place. */
    method PatchInPlace(o: SectionObject)
      requires AllSignalled(patches)
      modifies o
      ensures o.syntax == PatchSyntax(old(o.syntax), patches)
    {
      ghost var x := o.syntax;
      var n := |o.syntax.pmt.streams|;
      for i := 0 to n
        invariant |x.pmt.streams| == n && o.syntax == WithStreams(x, PatchStreams(x.pmt.streams, patches, i))
      {
        var s := o.syntax.pmt.streams[i];
        if s.pid in patches {
          o.syntax := WithStreams(o.syntax, o.syntax.pmt.streams[i := patches[s.pid].value(s)]);
        }
        assert o.syntax.pmt.streams == PatchStreams(x.pmt.streams, patches, i + 1);
      }
      if patches != map[] {
        o.syntax := o.syntax.(version := (o.syntax.version + 1) % 32);
      }
    }

    /** One pending PMT goes out. */
    method Release(p: PendingPMT, ghost a: Arrival) returns (ok: bool)
      requires AllSignalled(patches) && Same(p, a)
      modifies p.section, this`completed
      ensures ok <==> Outgoing(a, patches).Some?
      ensures ok ==> completed == old(completed) + [CompletedSlot(a.token, [Outgoing(a, patches).value])]
      ensures patches == map[] ==> p.section.syntax == old(p.section.syntax)
    {
      NothingToPatch(a.syntax);
      PatchInPlace(p.section);
      var output := p.packet;
      if patches != map[] {
        match Packetize(p.packet, WriteSection(p.section.section, p.section.syntax)) {
          case None => return false;
          case Some(packet) => output := packet;
        }
      }
      completed := completed + [CompletedSlot(p.token, [output])];
      return true;
    }

    /** The same, on record. */
    method ReleaseNext(p: PendingPMT) returns (ok: bool)
      requires AllSignalled(patches) && Released() && |released| < |arrived| && Same(p, arrived[|released|])
      requires Covers(patches, arrived[0], inputEncrypted)
      modifies p.section, this`completed, this`released, this`used
      ensures ok <==> Outgoing(arrived[|old(released)|], patches).Some?
      ensures ok ==> Released() && |released| == |old(released)| + 1 && old(released) <= released
      ensures ok ==> completed == old(completed) + released[|old(released)|..] && used == old(used) + [patches]
      ensures patches == map[] ==> p.section.syntax == old(p.section.syntax)
    {
      ok := Release(p, arrived[|released|]);
      if ok {
        OneMoreReleased(released, arrived, used, inputEncrypted, completed[|completed| - 1], patches);
        released := released + [completed[|completed| - 1]];
        used := used + [patches];
      }
    }

    /** The first k of the pending PMTs have gone out, the others are as they arrived. */
    ghost predicate Releasing(base: nat, k: nat)
      reads this, Objects(pending)
    {
      && Released() && AllSignalled(patches) && (arrived != [] ==> Covers(patches, arrived[0], inputEncrypted))
      && |arrived| == base + |pending| && |released| == base + k
      && (forall i, j :: 0 <= i < j < |pending| ==> pending[i].section != pending[j].section)
      && forall i :: k <= i < |pending| ==> Same(pending[i], arrived[base + i])
    }

    method ReleaseStep(k: nat, ghost base: nat) returns (ok: bool)
      requires Releasing(base, k) && k < |pending|
      modifies this`completed, this`released, this`used, pending[k].section
      ensures !ok ==> Misfit(arrived[base + k], patches)
      ensures ok ==> Releasing(base, k + 1) && old(released) <= released
      ensures ok ==> completed == old(completed) + released[|old(released)|..] && used == old(used) + [patches]
      ensures patches == map[] ==> pending[k].section.syntax == old(pending[k].section.syntax)
    {
      ok := ReleaseNext(pending[k]);
    }

    /** The outer loop of completeReady. */
    method ReleaseAll() returns (ok: bool)
      requires Holding() && Released() && AllSignalled(patches)
      requires arrived != [] ==> Covers(patches, arrived[0], inputEncrypted)
      modifies this`completed, this`released, this`used, Objects(pending)
      ensures ok <==> !SomeMisfit(arrived, |old(released)|, patches)
      ensures ok ==> Released() && |released| == |arrived| && old(released) <= released
      ensures ok ==> old(used) <= used && UsedFrom(used, |old(used)|, patches)
      ensures ok ==> completed == old(completed) + released[|old(released)|..]
      ensures patches == map[] && |pending| == 1 ==> pending[0].section.syntax == old(pending[0].section.syntax)
    {
      hide Misfit, Covers, ReleasedAs;
      ghost var base, start := |released|, completed;
      ok := true;
      for k := 0 to |pending|
        invariant Releasing(base, k) && old(released) <= released
        invariant old(used) <= used && UsedFrom(used, |old(used)|, patches)
        invariant completed == start + released[base..]
        invariant patches == map[] && |pending| == 1 ==> pending[0].section.syntax == old(pending[0].section.syntax)
      {
        ghost var sofar := released;
        ok := ReleaseStep(k, base);
        if !ok {
          return;
        }
        TailGrows(sofar, released, base);
        ConcatAssociates(start, sofar[base..], released[|sofar|..]);
      }
      NeverReleased(released, arrived, used, inputEncrypted, |old(released)|, patches);
    }

    /** completeReady: nothing while a stream has not signalled, otherwise every pending
      * PMT in arrival order. It fails exactly if one of them does not fit its packet when patched. */
    method CompleteReady() returns (ok: bool)
      requires Inv()
      modifies this`completed, this`pending, this`released, this`used, Objects(pending)
      ensures ok <==> !SomeMisfit(arrived, |old(released)|, patches)
      ensures ok ==> Inv() && (pending != [] ==> !AllSignalled(patches))
      ensures ok ==> old(used) <= used && UsedFrom(used, |old(used)|, patches)
      ensures ok ==> old(released) <= released && completed == old(completed) + released[|old(released)|..]
      ensures !AllSignalled(patches) ==> ok && pending == old(pending) && unchanged(Objects(pending))
      ensures ok ==> pending == [] || pending == old(pending)
      ensures patches == map[] && |old(pending)| == 1 ==>
        old(pending)[0].section.syntax == old(pending[0].section.syntax)
    {
      if !AllSignalled(patches) {
        assert UnfoldMisfit(0);
        return true;
      }
      ok := ReleaseAll();
      if ok {
        pending := [];
      }
    }

    /** The loop over the streams of the first PMT. */
    method AwaitStreams(streams: seq<ElementaryStream>)
      modifies this`patches, this`initialized
      ensures initialized
      ensures forall pid :: pid in old(patches) ==> pid in patches && patches[pid] == old(patches)[pid]
      ensures forall i :: 0 <= i < |streams| && Supported(streams[i].streamType, inputEncrypted) ==>
        streams[i].pid in patches
      ensures forall pid :: pid in patches && pid !in old(patches) ==>
        patches[pid] == None && exists i ::
          0 <= i < |streams| && Supported(streams[i].streamType, inputEncrypted) && streams[i].pid == pid
    {
      for i := 0 to |streams|
        invariant forall pid :: pid in old(patches) ==> pid in patches && patches[pid] == old(patches)[pid]
        invariant forall k :: 0 <= k < i && Supported(streams[k].streamType, inputEncrypted) ==>
          streams[k].pid in patches
        invariant forall pid :: pid in patches && pid !in old(patches) ==>
          patches[pid] == None && exists i ::
            0 <= i < |streams| && Supported(streams[i].streamType, inputEncrypted) && streams[i].pid == pid
      {
        if Supported(streams[i].streamType, inputEncrypted) && streams[i].pid !in patches {
          patches := patches[streams[i].pid := None];
        }
      }
      initialized := true;
    }

    /** collectPMT with the collector; PMTs of other programs or of the future do not count. */
    method Collect(p: Packet) returns (c: Collected)
      requires collector.buf == []
      modifies collector
      ensures CollectsAs(p, c) && (c != BadPMT ==> collector.buf == [])
    {
      if !p.hasPayload {
        return NoPMT;
      }
      if !p.pusi || !OneSection(p.payload) {
        return BadPMT;
      }
      var ok, sections := collector.Consume(true, p.payload);
      if !ok {
        return BadPMT;
      }
      NothingKept(p.payload);
      return FindProgram(sections);
    }

    /** A PMT has been found: it is held, or released with everything before it. The object
      * that comes back shares its streams with the pending PMT. */
    method Hold(token: nat, p: Packet, s: Section, x: Syntax) returns (ok: bool, held: SectionObject)
      requires Valid()
      modifies this`completed, this`patches, this`pending, this`initialized, this`arrived, this`released,
        this`used, Objects(pending)
      ensures arrived == old(arrived) + [Arrival(token, p, s, x)]
      ensures ok <==> !SomeMisfit(arrived, |old(released)|, patches)
      ensures ok ==> old(used) <= used && UsedFrom(used, |old(used)|, patches)
      ensures ok ==> Valid() && fresh(held)
      ensures ok ==> pending == [] || pending == old(pending) + [PendingPMT(token, p, held)]
      ensures ok ==> old(released) <= released && completed == old(completed) + released[|old(released)|..]
      ensures ok && old(patches) == map[] ==> held.syntax == x
      ensures old(arrived) == [] && old(patches) == map[] ==> Awaiting(patches, Arrival(token, p, s, x), inputEncrypted)
      ensures old(arrived) != [] ==> patches == old(patches)
    {
      held := Arrive(token, p, s, x);
      ok := CompleteReady();
    }

    method Arrive(token: nat, p: Packet, s: Section, x: Syntax) returns (held: SectionObject)
      requires Valid()
      modifies this`patches, this`pending, this`initialized, this`arrived
      ensures Inv() && fresh(held) && held.syntax == x
      ensures arrived == old(arrived) + [Arrival(token, p, s, x)]
        && pending == old(pending) + [PendingPMT(token, p, held)]
      ensures old(patches) == map[] ==>
        pending == [PendingPMT(token, p, held)] && (patches == map[] || !AllSignalled(patches))
      ensures old(arrived) == [] && old(patches) == map[] ==> Awaiting(patches, Arrival(token, p, s, x), inputEncrypted)
      ensures old(arrived) != [] ==> patches == old(patches)
    {
      ghost var a := Arrival(token, p, s, x);
      if !initialized {
        AwaitStreams(x.pmt.streams);
        assert forall pid :: pid in patches && pid !in old(patches) ==> patches[pid] == None;
      }
      held := new SectionObject(s, x);
      OneMoreArrived(released, arrived, used, inputEncrypted, a);
      pending := pending + [PendingPMT(token, p, held)];
      arrived := arrived + [a];
    }

    /** A packet of the PMT's PID. What is not a PMT of the program goes out at once, unchanged. */
    method Consume(token: nat, p: Packet) returns (ok: bool, held: SectionObject?, ghost c: Collected)
      requires Valid()
      modifies this`completed, this`patches, this`pending, this`initialized, this`arrived, this`released, this`used,
        collector, Objects(pending)
      ensures CollectsAs(p, c) && (c == BadPMT ==> !ok) && (c == NoPMT ==> ok) && (ok ==>
        (held == null <==> c == NoPMT))
      ensures c.Found? ==> (ok <==> !SomeMisfit(arrived, |old(released)|, patches))
      ensures ok ==> old(used) <= used && UsedFrom(used, |old(used)|, patches)
      ensures c == NoPMT ==> Valid() && completed == old(completed) + [CompletedSlot(token, [p])]
      ensures c == NoPMT ==> arrived == old(arrived) && released == old(released) && pending == old(pending)
      ensures c == NoPMT ==> patches == old(patches) && used == old(used)
      ensures c.Found? ==> arrived == old(arrived) + [Arrival(token, p, c.section, c.syntax)]
      ensures ok && held != null ==> Valid() && c.Found?
      ensures ok && held != null ==> old(released) <= released
      ensures ok && held != null ==> completed == old(completed) + released[|old(released)|..]
      ensures ok && held != null ==> fresh(held)
      ensures ok && held != null ==> (pending == [] || pending == old(pending) + [PendingPMT(token, p, held)])
      ensures ok && held != null && old(patches) == map[] ==> held.syntax == c.syntax
      ensures c.Found? && old(arrived) == [] && old(patches) == map[] ==> Awaiting(patches, arrived[0], inputEncrypted)
      ensures c.Found? && old(arrived) != [] ==> patches == old(patches)
    {
      held := null;
      var found := Collect(p);
      c := found;
      match found {
        case BadPMT => ok := false;
        case NoPMT =>
          completed := completed + [CompletedSlot(token, [p])];
          ok := true;
        case Found(s, x) =>
          ok, held := Hold(token, p, s, x);
      }
    }

    /** Every PMT that has arrived was released or waits, in arrival order. */
    lemma TokensKept()
      requires Valid()
      ensures ArrivedTokens(arrived) == SlotTokens(released) + PendingTokens(pending)
    {
      ReleasedInOrder(released, arrived, used, inputEncrypted);
    }

    /** A stream says how its entry is to be changed. */
    method Signal(pid: nat, patch: Patch) returns (ok: bool)
      requires Valid()
      modifies this`patches, this`completed, this`pending, this`released, this`used, Objects(pending)
      ensures patches == old(patches)[pid := Some(patch)]
      ensures ok <==> !SomeMisfit(arrived, |old(released)|, patches)
      ensures ok ==> old(used) <= used && UsedFrom(used, |old(used)|, patches)
      ensures ok ==> Valid()
      ensures ok ==> pending == [] || pending == old(pending)
      ensures ok ==> old(released) <= released && completed == old(completed) + released[|old(released)|..]
    {
      patches := patches[pid := Some(patch)];
      ok := CompleteReady();
    }

    method Flush() returns (ok: bool)
      requires Valid()
      ensures ok <==> |released| == |arrived|
    {
      ok := |pending| == 0;
    }
  }
}
