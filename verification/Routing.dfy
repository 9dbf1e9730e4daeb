/** Where ts/remuxer.go sends each packet, which streams it makes and what they change in the
  * PMT: everything that the input decides by itself.
  */
module Routing {
  import opened Bytes
  import opened Cipher
  import opened Wrappers
  import opened Packets
  import opened PsiSections
  import PG = PmtGate
  import opened Ownership
  import opened StreamModel
  import opened MediaStreams
  import opened StreamFactory
  import opened Lanes
  import opened RemuxLog

  const PAT_PID := 0

  /** What collecting a PAT packet brings. */
  datatype PATResult = PATFailed | NoProgram | Program(pmtPID: nat)

  datatype Params = Params(keys: Keys, inputEncrypted: bool)

  // ---- which streams are made ----

  /** A stream for each PID with a supported entry, made for the type of the first one. */
  function KindsFrom(entries: seq<ElementaryStream>, q: Params): map<nat, Kind>
    decreases |entries|
  {
    if entries == [] then map[]
    else
      var n := |entries| - 1;
      var before, e := KindsFrom(entries[..n], q), entries[n];
      if PG.Supported(e.streamType, q.inputEncrypted) && e.pid !in before
      then before[e.pid := KindFor(e.streamType, q.keys)] else before
  }

  predicate Supports(entries: seq<ElementaryStream>, q: Params, i: nat, pid: nat) {
    i < |entries| && entries[i].pid == pid && PG.Supported(entries[i].streamType, q.inputEncrypted)
  }

  predicate SupportsFirst(entries: seq<ElementaryStream>, q: Params, i: nat, pid: nat) {
    Supports(entries, q, i, pid) && forall j: nat :: j < i ==> !Supports(entries, q, j, pid)
  }

  /** A PID gets a stream exactly if it has a supported entry; the first such entry decides. */
  lemma {:induction false} KindsExact(entries: seq<ElementaryStream>, q: Params, pid: nat)
    ensures pid in KindsFrom(entries, q) <==> exists i: nat :: SupportsFirst(entries, q, i, pid)
    ensures forall i: nat :: SupportsFirst(entries, q, i, pid) ==>
      pid in KindsFrom(entries, q) && KindsFrom(entries, q)[pid] == KindFor(entries[i].streamType, q.keys)
    decreases |entries|
  {
    hide KindFor, PG.Supported;
    if entries != [] {
      var n := |entries| - 1;
      KindsExact(entries[..n], q, pid);
      if i: nat :| SupportsFirst(entries[..n], q, i, pid) {
        SupportsMore(entries, q, i, pid);
        assert SupportsFirst(entries, q, i, pid) && entries[..n][i] == entries[i];
      } else {
        NoneSupports(entries[..n], q, pid);
        LastSupports(entries, entries[..n], q, pid);
        if Supports(entries, q, n, pid) {
          assert SupportsFirst(entries, q, n, pid);
        }
      }
    }
  }

  lemma LastSupports(entries: seq<ElementaryStream>, front: seq<ElementaryStream>, q: Params, pid: nat)
    requires entries != [] && front == entries[..|entries| - 1] && forall i :: !Supports(front, q, i, pid)
    ensures forall k :: SupportsFirst(entries, q, k, pid) <==> k == |entries| - 1 && Supports(entries, q, k, pid)
  {
    assert forall j: nat :: j < |front| ==> (Supports(front, q, j, pid) <==> Supports(entries, q, j, pid));
  }

  lemma SupportsMore(entries: seq<ElementaryStream>, q: Params, i: nat, pid: nat)
    requires entries != [] && SupportsFirst(entries[..|entries| - 1], q, i, pid)
    ensures forall k :: SupportsFirst(entries, q, k, pid) <==> k == i
  {
    var front := entries[..|entries| - 1];
    assert forall j: nat :: j <= i ==> (Supports(front, q, j, pid) <==> Supports(entries, q, j, pid));
  }

  lemma {:induction false} NoneSupports(entries: seq<ElementaryStream>, q: Params, pid: nat)
    requires forall i :: !SupportsFirst(entries, q, i, pid)
    ensures forall i :: !Supports(entries, q, i, pid)
    decreases |entries|
  {
    forall i: nat ensures !Supports(entries, q, i, pid) {
      NotFirst(entries, q, pid, i);
    }
  }

  lemma {:induction false} NotFirst(entries: seq<ElementaryStream>, q: Params, pid: nat, i: nat)
    requires forall k :: !SupportsFirst(entries, q, k, pid)
    ensures !Supports(entries, q, i, pid)
    decreases i
  {
    forall j: nat | j < i ensures !Supports(entries, q, j, pid) {
      NotFirst(entries, q, pid, j);
    }
    assert !SupportsFirst(entries, q, i, pid);
  }

  lemma KindsNext(entries: seq<ElementaryStream>, i: nat, q: Params)
    requires i < |entries|
    ensures var before, e := KindsFrom(entries[..i], q), entries[i];
      KindsFrom(entries[..i + 1], q) ==
        if PG.Supported(e.streamType, q.inputEncrypted) && e.pid !in before
        then before[e.pid := KindFor(e.streamType, q.keys)] else before
  {
    assert entries[..i + 1][..i] == entries[..i];
  }

  /** Later entries change nothing for PIDs that have a stream. */
  lemma {:induction false} KindsGrow(entries: seq<ElementaryStream>, i: nat, q: Params)
    requires i <= |entries|
    ensures KindsFrom(entries[..i], q).Keys <= KindsFrom(entries, q).Keys
    ensures forall pid :: pid in KindsFrom(entries[..i], q) ==>
      KindsFrom(entries[..i], q)[pid] == KindsFrom(entries, q)[pid]
    decreases |entries| - i
  {
    if i < |entries| {
      KindsNext(entries, i, q);
      KindsGrow(entries, i + 1, q);
    } else {
      assert entries[..i] == entries;
    }
  }

  /** The PIDs that get a stream are those that the PMT transformer waits for. */
  lemma KindsAwaited(first: PG.Arrival, q: Params, pid: nat)
    ensures pid in KindsFrom(first.syntax.pmt.streams, q) <==> PG.Awaits(first, q.inputEncrypted, pid)
  {
    var entries := first.syntax.pmt.streams;
    KindsExact(entries, q, pid);
    if PG.Awaits(first, q.inputEncrypted, pid) {
      var i :| 0 <= i < |entries| && entries[i].pid == pid && PG.Supported(entries[i].streamType, q.inputEncrypted);
      assert Supports(entries, q, i, pid);
      if forall k :: !SupportsFirst(entries, q, k, pid) {
        NoneSupports(entries, q, pid);
      }
    }
  }

  // ---- the way of each packet ----

  /** What the input so far has led to: the PID of the PMT, who has got each packet, the PMTs
    * found, and the streams. There are none until a PMT with entries has come. */
  datatype Plan = Plan(pmtPID: nat, route: seq<Owner>, arrived: seq<PG.Arrival>, streams: Option<map<nat, Kind>>)

  function Kinds(plan: Plan): map<nat, Kind> {
    if plan.streams.None? then map[] else plan.streams.value
  }

  /** A stream takes a packet unless it carries payload and no PES is under way. */
  predicate TakesPacket(plan: Plan, sofar: seq<Packet>, p: Packet)
    requires |plan.route| == |sofar|
  {
    p.pid in Kinds(plan) &&
    var c := Collect(PacketsOf(sofar, plan.route, Stream(p.pid)));
    c.Ok? && Reaches(c.state, p)
  }

  function NextPlan(plan: Plan, sofar: seq<Packet>, p: Packet, h: PATResult, q: Params): (r: Plan)
    requires |plan.route| == |sofar|
    ensures |r.route| == |sofar| + 1 && plan.route == r.route[..|sofar|]
  {
    if p.pid == PAT_PID then
      plan.(pmtPID := if h.Program? then h.pmtPID else plan.pmtPID, route := plan.route + [Current])
    else if p.pid == plan.pmtPID then
      match PG.CollectPMT(p)
      case Found(s, x) =>
        Plan(plan.pmtPID, plan.route + [Gate], plan.arrived + [PG.Arrival(|sofar|, p, s, x)],
             if plan.streams.None? && x.pmt.streams != [] then Some(KindsFrom(x.pmt.streams, q)) else plan.streams)
      case _ => plan.(route := plan.route + [Current])
    else plan.(route := plan.route + [if TakesPacket(plan, sofar, p) then Stream(p.pid) else Current])
  }

  /** A packet brings no PMT, or one more. */
  lemma NextCases(plan: Plan, sofar: seq<Packet>, p: Packet, h: PATResult, q: Params)
    requires |plan.route| == |sofar|
    ensures var r := NextPlan(plan, sofar, p, h, q);
      || (r.arrived == plan.arrived && r.streams == plan.streams && r.route[|sofar|] != Gate)
      || exists a :: Found(plan, r, a, q) && a.token == |sofar| && a.packet == p && r.route[|sofar|] == Gate
  {
    hide TakesPacket, KindsFrom;
    if p.pid != PAT_PID && p.pid == plan.pmtPID && PG.CollectPMT(p).Found? {
      var c := PG.CollectPMT(p);
      var a := PG.Arrival(|sofar|, p, c.section, c.syntax);
      assert Found(plan, NextPlan(plan, sofar, p, h, q), a, q);
    }
  }

  /** The plan after a PMT has been found. */
  ghost predicate Found(plan: Plan, r: Plan, a: PG.Arrival, q: Params) {
    && r.arrived == plan.arrived + [a] && PG.CollectsAs(a.packet, PG.Found(a.section, a.syntax))
    && r.streams == if plan.streams.None? && a.syntax.pmt.streams != [] then Some(KindsFrom(a.syntax.pmt.streams, q))
                    else plan.streams
  }

  /** `heard` is what was found in the packets that carry a PAT. */
  function PlanOf(inputs: seq<Packet>, heard: seq<PATResult>, q: Params): (r: Plan)
    requires |inputs| == |heard|
    ensures |r.route| == |inputs|
    decreases |inputs|
  {
    if inputs == [] then Plan(0, [], [], None)
    else
      var n := |inputs| - 1;
      NextPlan(PlanOf(inputs[..n], heard[..n], q), inputs[..n], inputs[n], heard[n], q)
  }

  lemma PlanSnoc(inputs: seq<Packet>, heard: seq<PATResult>, q: Params, p: Packet, h: PATResult)
    requires |inputs| == |heard|
    ensures PlanOf(inputs + [p], heard + [h], q) == NextPlan(PlanOf(inputs, heard, q), inputs, p, h, q)
  {
    assert (inputs + [p])[..|inputs|] == inputs && (heard + [h])[..|heard|] == heard;
  }

  ghost predicate UnfoldExtends(k: int) { true }

  /** The one plan is what the other has become after more input. Sealed. */
  ghost predicate Extends(a: Plan, b: Plan) {
    forall k {:trigger UnfoldExtends(k)} :: UnfoldExtends(k) ==>
      a.route <= b.route && a.arrived <= b.arrived && (a.streams.Some? ==> b.streams == a.streams)
  }

  lemma {:induction false} PlanPrefix(inputs: seq<Packet>, heard: seq<PATResult>, q: Params, t: nat)
    requires t <= |inputs| == |heard|
    ensures Extends(PlanOf(inputs[..t], heard[..t], q), PlanOf(inputs, heard, q))
    decreases |inputs|
  {
    hide NextPlan;
    var n := |inputs| - 1;
    if t <= n {
      PlanPrefix(inputs[..n], heard[..n], q, t);
      assert inputs[..n][..t] == inputs[..t] && heard[..n][..t] == heard[..t];
      NextCases(PlanOf(inputs[..n], heard[..n], q), inputs[..n], inputs[n], heard[n], q);
      assert UnfoldExtends(0);
    } else {
      assert inputs[..t] == inputs && heard[..t] == heard;
    }
  }

  /** The PID that the last PAT with a program has named; 0 before there is one. */
  function LastProgram(inputs: seq<Packet>, heard: seq<PATResult>): nat
    requires |inputs| == |heard|
    decreases |inputs|
  {
    if inputs == [] then 0
    else
      var n := |inputs| - 1;
      if inputs[n].pid == 0 && heard[n].Program? then heard[n].pmtPID else LastProgram(inputs[..n], heard[..n])
  }

  /** Whether a packet goes to a stream: the stream has been made, and the packet starts a PES, has
    * no payload, or comes while the packets before it have left a PES under way. */
  predicate GoesToStream(inputs: seq<Packet>, heard: seq<PATResult>, q: Params, p: Packet)
    requires |inputs| == |heard|
  {
    var plan := PlanOf(inputs, heard, q);
    p.pid in Kinds(plan) &&
    var c := Collect(PacketsOf(inputs, plan.route, Stream(p.pid)));
    c.Ok? && (p.pusi || !p.hasPayload || !c.state.phase.Idle?)
  }

  lemma {:induction false} ProgramIsLast(inputs: seq<Packet>, heard: seq<PATResult>, q: Params)
    requires |inputs| == |heard|
    ensures PlanOf(inputs, heard, q).pmtPID == LastProgram(inputs, heard)
    decreases |inputs|
  {
    hide TakesPacket, KindsFrom, PG.CollectPMT;
    if inputs != [] {
      var n := |inputs| - 1;
      ProgramIsLast(inputs[..n], heard[..n], q);
    }
  }

  /** The way of each packet: PID 0 is passed on, what is on the PID of the last program goes to the
    * PMT transformer if a PMT is found in it, and everything else to its stream or on. */
  lemma WayExactly(inputs: seq<Packet>, heard: seq<PATResult>, q: Params, t: nat)
    requires t < |inputs| == |heard|
    ensures var p := inputs[t];
      PlanOf(inputs, heard, q).route[t] ==
        if p.pid == 0 then Current
        else if p.pid == LastProgram(inputs[..t], heard[..t]) then
          if PG.CollectPMT(p).Found? then Gate else Current
        else if GoesToStream(inputs[..t], heard[..t], q, p) then Stream(p.pid)
        else Current
  {
    hide KindsFrom, PG.CollectPMT, PlanOf;
    var sofar, h := inputs[..t], heard[..t];
    ProgramIsLast(sofar, h, q);
    PlanPrefix(inputs, heard, q, t + 1);
    assert UnfoldExtends(0);
    assert inputs[..t + 1] == sofar + [inputs[t]] && heard[..t + 1] == h + [heard[t]];
    PlanSnoc(sofar, h, q, inputs[t], heard[t]);
  }

  // ---- the PMTs that have been found ----

  /** The first PMT has entries. If not, the PMT transformer waits for nobody, ever. */
  predicate FirstHasEntries(arrived: seq<PG.Arrival>) {
    arrived != [] && arrived[0].syntax.pmt.streams != []
  }

  /** The PIDs that the PMT transformer waits for. */
  function AwaitedBy(arrived: seq<PG.Arrival>, q: Params): set<nat> {
    if arrived == [] then {} else KindsFrom(arrived[0].syntax.pmt.streams, q).Keys
  }

  function ArrivedPackets(arrived: seq<PG.Arrival>): seq<Packet> {
    seq(|arrived|, i requires 0 <= i < |arrived| => arrived[i].packet)
  }

  /** The slots of the PMT transformer are those of the PMTs found. */
  lemma {:induction false} GateHasArrived(inputs: seq<Packet>, heard: seq<PATResult>, q: Params)
    requires |inputs| == |heard|
    ensures var plan := PlanOf(inputs, heard, q);
      && PG.ArrivedTokens(plan.arrived) == TokensOf(plan.route, Gate)
      && ArrivedPackets(plan.arrived) == PacketsOf(inputs, plan.route, Gate)
      && forall k :: 0 <= k < |plan.arrived| ==> plan.arrived[k].token < |inputs|
    decreases |inputs|
  {
    hide NextPlan;
    if inputs != [] {
      var n := |inputs| - 1;
      GateHasArrived(inputs[..n], heard[..n], q);
      var before, plan := PlanOf(inputs[..n], heard[..n], q), PlanOf(inputs, heard, q);
      NextCases(before, inputs[..n], inputs[n], heard[n], q);
      assert inputs == inputs[..n] + [inputs[n]] && plan.route == before.route + [plan.route[n]];
      RouteSnoc(inputs[..n], before.route, inputs[n], plan.route[n], Gate);
      if plan.route[n] == Gate {
        var a :| Found(before, plan, a, q) && a.token == n && a.packet == inputs[n];
        assert PG.ArrivedTokens(plan.arrived) == PG.ArrivedTokens(before.arrived) + [a.token];
        assert ArrivedPackets(plan.arrived) == ArrivedPackets(before.arrived) + [a.packet];
      }
    }
  }

  ghost predicate UnfoldOrigin(k: int) { true }

  /** The streams come from the first PMT with entries, number f. Sealed. */
  ghost predicate Origin(inputs: seq<Packet>, heard: seq<PATResult>, q: Params, f: nat)
    requires |inputs| == |heard|
  {
    forall k {:trigger UnfoldOrigin(k)} :: UnfoldOrigin(k) ==>
      var plan := PlanOf(inputs, heard, q);
      && f < |plan.arrived| && plan.arrived[f].syntax.pmt.streams != []
      && (forall j :: 0 <= j < f ==> plan.arrived[j].syntax.pmt.streams == [])
      && plan.streams == Some(KindsFrom(plan.arrived[f].syntax.pmt.streams, q))
      && plan.arrived[f].token < |inputs|
      && PlanOf(inputs[..plan.arrived[f].token], heard[..plan.arrived[f].token], q).streams.None?
  }

  /** There are streams exactly from the first PMT with entries on, and they are its streams. */
  lemma {:induction false} StreamsOrigin(inputs: seq<Packet>, heard: seq<PATResult>, q: Params) returns (f: nat)
    requires |inputs| == |heard|
    ensures var plan := PlanOf(inputs, heard, q);
      if plan.streams.Some? then Origin(inputs, heard, q, f)
      else forall k :: 0 <= k < |plan.arrived| ==> plan.arrived[k].syntax.pmt.streams == []
    decreases |inputs|
  {
    hide NextPlan, KindsFrom;
    f := 0;
    if inputs != [] {
      var n := |inputs| - 1;
      f := StreamsOrigin(inputs[..n], heard[..n], q);
      var before, plan := PlanOf(inputs[..n], heard[..n], q), PlanOf(inputs, heard, q);
      NextCases(before, inputs[..n], inputs[n], heard[n], q);
      if before.streams.Some? {
        assert UnfoldOrigin(0);
        var t := before.arrived[f].token;
        assert inputs[..n][..t] == inputs[..t] && heard[..n][..t] == heard[..t];
      } else if plan.streams.Some? {
        f := |before.arrived|;
        var a :| Found(before, plan, a, q) && a.token == n;
        assert plan.arrived[f] == a;
      }
    }
  }

  /** If the first PMT has entries the streams are those that the PMT transformer waits for. */
  lemma AwaitedAreMade(inputs: seq<Packet>, heard: seq<PATResult>, q: Params)
    requires |inputs| == |heard|
    ensures var plan := PlanOf(inputs, heard, q);
      AwaitedBy(plan.arrived, q) == if FirstHasEntries(plan.arrived) then Kinds(plan).Keys else {}
  {
    var plan := PlanOf(inputs, heard, q);
    var f := StreamsOrigin(inputs, heard, q);
    if FirstHasEntries(plan.arrived) {
      assert UnfoldOrigin(0);
      assert f == 0;
    }
  }

  // ---- what the streams change in the PMT ----

  /** What a stream does to its entry once these packets have shown what has to be signalled. */
  ghost function PatchAfter(k: Kind, packets: seq<Packet>): Option<PG.Patch> {
    match SetupFor(CodecFor(k), packets) case None => None case Some(setup) => Some(PatchFor(k, setup))
  }

  ghost function PatchOf(v: View): Option<PG.Patch> {
    PatchAfter(v.kind, v.source)
  }

  ghost predicate UnfoldAnnounced(k: int) { true }

  /** The PMT transformer has heard of each stream what the stream has signalled, and waits for
    * the awaited ones. Sealed. */
  ghost predicate Announced(patches: PG.Patches, views: map<nat, View>, awaited: set<nat>) {
    forall k {:trigger UnfoldAnnounced(k)} :: UnfoldAnnounced(k) ==>
      && (forall pid :: pid in patches <==> pid in awaited || (pid in views && PatchOf(views[pid]).Some?))
      && forall pid :: pid in patches ==> patches[pid] == if pid in views then PatchOf(views[pid]) else None
  }

  lemma NothingAnnounced(patches: PG.Patches, awaited: set<nat>)
    requires patches.Keys == awaited && forall pid :: pid in patches ==> patches[pid].None?
    ensures Announced(patches, map[], awaited)
  {
  }

  /** Nothing new is signalled. */
  lemma AnnouncedSame(patches: PG.Patches, views: map<nat, View>, awaited: set<nat>, pid: nat, w: View)
    requires Announced(patches, views, awaited)
    requires if pid in views then PatchOf(w) == PatchOf(views[pid]) else PatchOf(w).None?
    ensures Announced(patches, views[pid := w], awaited)
  {
    hide PatchOf;
    assert UnfoldAnnounced(0);
  }

  lemma AnnouncedNow(patches: PG.Patches, views: map<nat, View>, awaited: set<nat>, pid: nat, w: View)
    requires Announced(patches, views, awaited) && Told(w).Some?
    ensures Announced(patches[pid := Some(PatchFor(w.kind, Told(w).value))], views[pid := w], awaited)
  {
    assert UnfoldAnnounced(0);
  }

  /** What an awaited stream has not signalled keeps the PMTs back. */
  lemma NotAnnounced(patches: PG.Patches, views: map<nat, View>, awaited: set<nat>, pid: nat)
    requires Announced(patches, views, awaited) && pid in awaited && (pid in views ==> Told(views[pid]).None?)
    ensures !PG.AllSignalled(patches)
  {
    assert UnfoldAnnounced(0);
  }

  lemma NobodyAwaited(patches: PG.Patches, views: map<nat, View>)
    requires Announced(patches, views, {})
    ensures PG.AllSignalled(patches) && (views == map[] ==> patches == map[])
  {
    assert UnfoldAnnounced(0);
  }
}
