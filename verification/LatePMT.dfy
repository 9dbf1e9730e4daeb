/** A program whose first PMT has no entries yet: the remuxer makes its streams from the next
  * one, but the PMT transformer waits for nobody.
  */
module LatePMT {
  import opened Bytes
  import opened Cipher
  import opened Wrappers
  import opened AdaptationField
  import opened Packets
  import opened AlignerModel
  import opened CommitQueues
  import opened PsiSections
  import opened PsiPackets
  import AB = AnnexB
  import M = MediaTransformers
  import PC = PesCollector
  import PG = PmtGate
  import opened Ownership
  import opened PesQueues
  import opened PesRuns
  import opened PesShapes
  import opened StreamModel
  import opened MediaStreams
  import opened StreamFactory
  import opened SlotRouters
  import opened RemuxLog
  import opened Routing
  import opened RemuxResult
  import opened RemuxRun

  const H264: byte := 0x1B

  function Entries(entries: seq<ElementaryStream>): Syntax {
    Syntax(1, 0, true, 0, 0, PMT(1, 0x1FFF, [], entries))
  }

  function Header(): Section {
    Section(true, false, 1, None)
  }

  /** A packet with this PMT, which has to be short enough. */
  function PMTPacket(pid: nat, entries: seq<ElementaryStream>): Packet {
    var encoded := WriteSection(Header(), Entries(entries));
    Packet(false, true, false, pid, 0, true, 0, None, if |encoded| < BODY then SectionPayload(encoded, BODY) else [])
  }

  predicate Short(entries: seq<ElementaryStream>) {
    |entries| <= 1 && forall i :: 0 <= i < |entries| ==> entries[i].descriptors == [] && entries[i].pid < 0x2000
  }

  lemma ShortLength(entries: seq<ElementaryStream>)
    requires Short(entries)
    ensures ComputedSectionLength(Entries(entries).pmt) == 13 + 5 * |entries|
  {
    if entries != [] {
      assert entries[1..] == [] && entries[0].descriptors == [];
      assert StreamsLength(entries) == 5 + StreamsLength(entries[1..]);
    }
  }

  lemma Fits(entries: seq<ElementaryStream>)
    requires Short(entries)
    ensures |WriteSection(Header(), Entries(entries))| < BODY
    ensures SyntaxOk(Entries(entries)) && RelengthSyntax(Entries(entries)).pmt.streams == entries
  {
    ShortLength(entries);
    SectionBack(Header(), Entries(entries));
    forall i | 0 <= i < |entries| ensures RelengthStreams(entries)[i] == entries[i] {
      assert RelengthAll([]) == [];
    }
    assert RelengthStreams(entries) == entries;
  }

  /** Collecting the packet gives the PMT. */
  lemma Collected(pid: nat, entries: seq<ElementaryStream>) returns (s: Section, x: Syntax)
    requires Short(entries)
    ensures PG.CollectPMT(PMTPacket(pid, entries)) == PG.Found(s, x) && x.pmt.streams == entries
  {
    Fits(entries);
    ShortLength(entries);
    var y := Entries(entries);
    PG.SectionCollected(PMTPacket(pid, entries), Header(), y);
    s, x := Header().(length := ComputedSectionLength(y.pmt), syntax := Some(RelengthSyntax(y))), RelengthSyntax(y);
  }

  /** A stream that gets no packet is fine. */
  lemma NothingIsFine(keys: Keys)
    ensures StreamFine(AvcStream(keys, true), [])
  {
    var c := CodecFor(AvcStream(keys, true));
    assert Received([]) == PC.Ok(PC.State(PC.Idle, []));
    assert Payloads([]) == [];
    assert AB.Split([]) == Some(AB.Stream([], 0));
    assert M.ImagesOf(c, []) == Some([]);
    assert TotalSize(InputsOf(c, [])) == 0;
  }

  // ---- the run ----

  /** A PAT, a PMT without entries, and a PMT with an H.264 stream. */
  function Input(pmtPID: nat, pid: nat): (r: seq<Packet>)
    ensures |r| == 3
  {
    [Packet(false, true, false, PAT_PID, 0, true, 0, None, []), PMTPacket(pmtPID, []),
     PMTPacket(pmtPID, [ElementaryStream(H264, pid, [])])]
  }

  function Heard(pmtPID: nat): seq<PATResult> {
    [Program(pmtPID), NoProgram, NoProgram]
  }

  /** What the two PMT packets carry. */
  lemma Arrivals(pmtPID: nat, pid: nat) returns (a: PG.Arrival, b: PG.Arrival)
    requires pid < 0x2000
    ensures Took(a, 1, Input(pmtPID, pid)[1]) && a.syntax.pmt.streams == []
    ensures Took(b, 2, Input(pmtPID, pid)[2]) && b.syntax.pmt.streams == [ElementaryStream(H264, pid, [])]
  {
    hide PG.CollectPMT, PMTPacket;
    var s, x := Collected(pmtPID, []);
    a := PG.Arrival(1, Input(pmtPID, pid)[1], s, x);
    s, x := Collected(pmtPID, [ElementaryStream(H264, pid, [])]);
    b := PG.Arrival(2, Input(pmtPID, pid)[2], s, x);
  }

  /** What this input leads to, step by step. */
  lemma Plans(ps: seq<Packet>, pmtPID: nat, pid: nat, q: Params, a: PG.Arrival, b: PG.Arrival)
    requires |ps| == 3 && ps[0].pid == PAT_PID && ps[1].pid == ps[2].pid == pmtPID != PAT_PID
    requires Took(a, 1, ps[1]) && a.syntax.pmt.streams == []
    requires Took(b, 2, ps[2]) && b.syntax.pmt.streams == [ElementaryStream(H264, pid, [])]
    ensures var hs := Heard(pmtPID);
      && PlanOf(ps[..0], hs[..0], q) == Plan(0, [], [], None)
      && PlanOf(ps[..1], hs[..1], q) == Plan(pmtPID, [Current], [], None)
      && PlanOf(ps[..2], hs[..2], q) == Plan(pmtPID, [Current, Gate], [a], None)
      && PlanOf(ps, hs, q) == Plan(pmtPID, [Current, Gate, Gate], [a, b], Some(map[pid := AvcStream(q.keys, true)]))
  {
    hide PG.CollectPMT, TakesPacket, Took, KindsFrom, PlanOf;
    var hs := Heard(pmtPID);
    NoPlan(q);
    assert ps[..0] == [] && hs[..0] == [];
    assert ps[..1] == ps[..0] + [ps[0]] && hs[..1] == hs[..0] + [hs[0]];
    ElseNext(ps[..0], hs[..0], q, ps[0], hs[0]);
    assert ps[..2] == ps[..1] + [ps[1]] && hs[..2] == hs[..1] + [hs[1]];
    PMTNext(ps[..1], hs[..1], q, ps[1], hs[1], a);
    assert ps == ps[..2] + [ps[2]] && hs == hs[..2] + [hs[2]];
    PMTNext(ps[..2], hs[..2], q, ps[2], hs[2], b);
    OneKind(pid, q);
  }

  lemma NoPlan(q: Params)
    ensures PlanOf([], [], q) == Plan(0, [], [], None)
  {
  }

  lemma OneKind(pid: nat, q: Params)
    ensures KindsFrom([ElementaryStream(H264, pid, [])], q) == map[pid := AvcStream(q.keys, true)]
  {
    var e := ElementaryStream(H264, pid, []);
    assert [e][..0] == [];
  }

  /** The input is sound, the H.264 stream is made, and the PMT that names it goes out with no
    * patch at all. */
  lemma LateEntries(pmtPID: nat, pid: nat, q: Params)
    requires pmtPID != PAT_PID && pid < 0x2000
    ensures var ps, hs := Input(pmtPID, pid), Heard(pmtPID);
      && Sound(ps, hs, q) && Kinds(PlanOf(ps, hs, q)) == map[pid := AvcStream(q.keys, true)]
      && |PlanOf(ps, hs, q).arrived| == 2 && PlanOf(ps, hs, q).arrived[1].token == 2
      && PlanOf(ps, hs, q).arrived[1].packet == ps[2] && PatchesFor(ps, hs, q, 1) == map[]
  {
    hide PlanOf, PG.CollectPMT, Input, StreamFine, PatchAfter;
    var ps, hs := Input(pmtPID, pid), Heard(pmtPID);
    var a, b := Arrivals(pmtPID, pid);
    FirstIsPAT(pmtPID, pid);
    Plans(ps, pmtPID, pid, q, a, b);
    var plan := PlanOf(ps, hs, q);
    TookIsFine(ps[1], 1, a);
    TookIsFine(ps[2], 2, b);
    forall t | 0 <= t < 3 ensures StepFine(PlanOf(ps[..t], hs[..t], q), ps[t], hs[t]) {
    }
    NothingIsFine(q.keys);
    assert PacketsOf(ps, plan.route, Stream(pid)) == [] by {
      NoTokens(ps, plan.route, Stream(pid));
    }
    assert PatchesFor(ps, hs, q, 0) == map[] && PatchesFor(ps, hs, q, 1) == map[];
  }

  lemma FirstIsPAT(pmtPID: nat, pid: nat)
    ensures Input(pmtPID, pid)[0].pid == PAT_PID
    ensures Input(pmtPID, pid)[1].pid == Input(pmtPID, pid)[2].pid == pmtPID
  {
  }

  lemma TookIsFine(p: Packet, token: nat, a: PG.Arrival)
    requires Took(a, token, p)
    ensures !PG.CollectsAs(p, PG.BadPMT)
  {
    assert PG.UnfoldCollects(0);
  }

  /** The failing side, as a run: the PMT comes out as it came in, although its stream is one of
    * those that the remuxer encrypts. */
  method LateEntriesRun(pmtPID: nat, pid: nat, q: Params) returns (r: Outcome, out: seq<Output>)
    requires pmtPID != PAT_PID && pid < 0x2000
    ensures r == Outcome.Done && |out| == 3 && out[2] == [Input(pmtPID, pid)[2]]
    ensures pid in Kinds(PlanOf(Input(pmtPID, pid), Heard(pmtPID), q))
  {
    hide PlanOf, Input, Sound, StreamDone, PatchesFor;
    LateEntries(pmtPID, pid, q);
    r, out := Run(Input(pmtPID, pid), Heard(pmtPID), q, _ => false);
    assert PMTDone(PlanOf(Input(pmtPID, pid), Heard(pmtPID), q).arrived[1],
                   PatchesFor(Input(pmtPID, pid), Heard(pmtPID), q, 1), out);
  }
}
