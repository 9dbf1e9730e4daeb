/** What a whole run of the remuxer has to write, and when it succeeds: every slot once and in
  * input order, holding the packet itself, the packets of a media stream, or the patched PMT.
  */
module RemuxResult {
  import opened Bytes
  import opened Cipher
  import opened Wrappers
  import opened Packets
  import opened AlignerModel
  import opened Aligner
  import opened CommitQueues
  import PG = PmtGate
  import opened Ownership
  import opened StreamModel
  import opened MediaStreams
  import opened StreamFactory
  import opened Lanes
  import opened SlotRouters
  import opened RemuxLog
  import opened Routing

  // ---- the patches ----

  function KindsOf(views: map<nat, View>): map<nat, Kind> {
    map pid | pid in views :: views[pid].kind
  }

  /** The patches in force: those signalled, and an empty one for each stream that is awaited
    * and has not signalled. */
  ghost function PatchesIn(plan: Plan, inputs: seq<Packet>): PG.Patches
    requires |inputs| == |plan.route|
  {
    map pid | pid in Kinds(plan)
      && (FirstHasEntries(plan.arrived)
          || PatchAfter(Kinds(plan)[pid], PacketsOf(inputs, plan.route, Stream(pid))).Some?)
      :: PatchAfter(Kinds(plan)[pid], PacketsOf(inputs, plan.route, Stream(pid)))
  }

  ghost function PatchesAt(inputs: seq<Packet>, heard: seq<PATResult>, q: Params): PG.Patches
    requires |inputs| == |heard|
  {
    PatchesIn(PlanOf(inputs, heard, q), inputs)
  }

  function Upto<T>(s: seq<T>, t: nat): seq<T> {
    if t <= |s| then s[..t] else s
  }

  /** The patches for PMT number k: when the streams are awaited all that they signal, otherwise
    * those that have been signalled when it comes. */
  ghost function PatchesFor(inputs: seq<Packet>, heard: seq<PATResult>, q: Params, k: nat): PG.Patches
    requires |inputs| == |heard| && k < |PlanOf(inputs, heard, q).arrived|
  {
    var arrived := PlanOf(inputs, heard, q).arrived;
    if FirstHasEntries(arrived) then PatchesAt(inputs, heard, q)
    else PatchesAt(Upto(inputs, arrived[k].token), Upto(heard, arrived[k].token), q)
  }

  // ---- success ----

  /** The PAT can be read and what the PMT's PID carries are PMTs or nothing. */
  ghost predicate StepFine(plan: Plan, p: Packet, h: PATResult) {
    && (p.pid == PAT_PID ==> !h.PATFailed?)
    && (p.pid != PAT_PID && p.pid == plan.pmtPID ==> !PG.CollectsAs(p, PG.BadPMT))
  }

  ghost predicate UnfoldSteps(k: int) { true }

  /** Sealed. */
  ghost predicate StepsFine(inputs: seq<Packet>, heard: seq<PATResult>, q: Params) {
    |inputs| == |heard| && forall k {:trigger UnfoldSteps(k)} :: UnfoldSteps(k) ==>
      forall t :: 0 <= t < |inputs| ==> StepFine(PlanOf(inputs[..t], heard[..t], q), inputs[t], heard[t])
  }

  ghost predicate StreamFine(k: Kind, packets: seq<Packet>) {
    Fine(CodecFor(k), packets) && AllPusi(packets)
  }

  ghost predicate StreamGoing(k: Kind, packets: seq<Packet>) {
    Acceptable(CodecFor(k), packets) && AllPusi(packets)
  }

  /** All awaited streams have signalled, and the patched PMT fits its packet. */
  ghost predicate Fits(a: PG.Arrival, patches: PG.Patches) {
    PG.AllSignalled(patches) && PG.Outgoing(a, patches).Some?
  }

  /** When a run over this input succeeds. */
  ghost predicate Sound(inputs: seq<Packet>, heard: seq<PATResult>, q: Params) {
    && |inputs| == |heard| && StepsFine(inputs, heard, q)
    && var plan := PlanOf(inputs, heard, q);
    && (forall pid :: pid in Kinds(plan) ==> StreamFine(Kinds(plan)[pid], PacketsOf(inputs, plan.route, Stream(pid))))
    && forall k :: 0 <= k < |plan.arrived| ==> Fits(plan.arrived[k], PatchesFor(inputs, heard, q, k))
  }

  ghost predicate UnfoldSofar(k: int) { true }

  /** Nothing has gone wrong up to here. Sealed. */
  ghost predicate SoundSofar(inputs: seq<Packet>, heard: seq<PATResult>, q: Params) {
    |inputs| == |heard| && StepsFine(inputs, heard, q)
    && forall k {:trigger UnfoldSofar(k)} :: UnfoldSofar(k) ==>
      var plan := PlanOf(inputs, heard, q);
      && (forall pid :: pid in Kinds(plan) ==>
            StreamGoing(Kinds(plan)[pid], PacketsOf(inputs, plan.route, Stream(pid))))
      && forall k :: 0 <= k < |plan.arrived| ==> !PG.Misfit(plan.arrived[k], PatchesFor(inputs, heard, q, k))
  }

  // ---- the output ----

  /** A PMT packet comes out in its own slot, patched. */
  ghost predicate PMTDone(a: PG.Arrival, patches: PG.Patches, out: seq<Output>) {
    Fits(a, patches) && a.token < |out| && out[a.token] == [PG.Outgoing(a, patches).value]
  }

  /** The output of a whole run. Once is per slot: a slot is written as a whole here, while
    * ts/output.go writes its packets one by one, so that writing a slot again after a failure
    * in the middle of it repeats packets. */
  ghost predicate Remuxed(inputs: seq<Packet>, heard: seq<PATResult>, q: Params, out: seq<Output>) {
    && |inputs| == |heard| == |out|
    && var plan := PlanOf(inputs, heard, q);
    && (forall t :: 0 <= t < |out| && plan.route[t] == Current ==> out[t] == [inputs[t]])
    && (forall pid :: pid in Kinds(plan) ==> StreamDone(pid, Kinds(plan)[pid], inputs, plan.route, out))
    && forall k :: 0 <= k < |plan.arrived| ==> PMTDone(plan.arrived[k], PatchesFor(inputs, heard, q, k), out)
  }

  // ---- what the transformer knows is what the input says ----

  lemma PatchesAre(patches: PG.Patches, views: map<nat, View>, inputs: seq<Packet>, heard: seq<PATResult>, q: Params)
    requires |inputs| == |heard|
    requires var plan := PlanOf(inputs, heard, q);
      && Announced(patches, views, AwaitedBy(plan.arrived, q)) && Sources(views, inputs, plan.route)
      && KindsOf(views) == Kinds(plan)
    ensures patches == PatchesAt(inputs, heard, q)
  {
    hide PatchAfter, PlanOf, KindsFrom;
    AwaitedAreMade(inputs, heard, q);
    assert UnfoldAnnounced(0) && UnfoldSources(0);
    var plan := PlanOf(inputs, heard, q);
    assert views.Keys == KindsOf(views).Keys;
    forall pid | pid in views ensures
      PatchOf(views[pid]) == PatchAfter(Kinds(plan)[pid], PacketsOf(inputs, plan.route, Stream(pid)))
    {
      assert KindsOf(views)[pid] == views[pid].kind;
    }
  }

  ghost predicate UnfoldUsed(k: int) { true }

  /** Every PMT released has been patched as the input says. Sealed. */
  ghost predicate UsedWell(used: seq<PG.Patches>, patches: PG.Patches, inputs: seq<Packet>, heard: seq<PATResult>,
                           q: Params) {
    |inputs| == |heard| && forall k {:trigger UnfoldUsed(k)} :: UnfoldUsed(k) ==>
      var plan := PlanOf(inputs, heard, q);
      && |used| <= |plan.arrived|
      && if FirstHasEntries(plan.arrived) then PG.UsedFrom(used, 0, patches)
         else forall k :: 0 <= k < |used| ==> used[k] == PatchesFor(inputs, heard, q, k)
  }

  lemma NothingUsed(q: Params)
    ensures UsedWell([], map[], [], [], q)
  {
  }

  lemma SameUpto(inputs: seq<Packet>, heard: seq<PATResult>, q: Params, p: Packet, h: PATResult, k: nat)
    requires |inputs| == |heard| && k < |PlanOf(inputs, heard, q).arrived|
    requires PlanOf(inputs, heard, q).arrived <= PlanOf(inputs + [p], heard + [h], q).arrived
    requires !FirstHasEntries(PlanOf(inputs, heard, q).arrived)
    ensures PatchesFor(inputs + [p], heard + [h], q, k) == PatchesFor(inputs, heard, q, k)
  {
    hide PatchesAt, NextPlan;
    GateHasArrived(inputs, heard, q);
    var t := PlanOf(inputs, heard, q).arrived[k].token;
    assert (inputs + [p])[..t] == inputs[..t] && (heard + [h])[..t] == heard[..t];
  }

  /** A packet without a PMT. */
  lemma UsedSame(used: seq<PG.Patches>, patches: PG.Patches, inputs: seq<Packet>, heard: seq<PATResult>, q: Params,
                 p: Packet, h: PATResult)
    requires UsedWell(used, patches, inputs, heard, q)
    requires PlanOf(inputs + [p], heard + [h], q).arrived == PlanOf(inputs, heard, q).arrived
    ensures UsedWell(used, patches, inputs + [p], heard + [h], q)
  {
    hide PlanOf, PatchesFor;
    assert UnfoldUsed(0);
    if !FirstHasEntries(PlanOf(inputs, heard, q).arrived) {
      forall k | 0 <= k < |used| ensures used[k] == PatchesFor(inputs + [p], heard + [h], q, k) {
        SameUpto(inputs, heard, q, p, h, k);
      }
    }
  }

  /** The patches are used again for every later PMT. */
  lemma UsedOn(before: seq<PG.Patches>, after: seq<PG.Patches>, patches: PG.Patches)
    requires PG.UsedFrom(before, 0, patches) && before <= after && PG.UsedFrom(after, |before|, patches)
    ensures PG.UsedFrom(after, 0, patches)
  {
    forall k | 0 <= k < |after| ensures after[k] == patches {
      if k < |before| {
        assert after[k] == before[k];
      }
    }
  }

  /** While streams are awaited all PMTs are released with the same patches. */
  lemma UsedNow(before: seq<PG.Patches>, after: seq<PG.Patches>, was: PG.Patches, patches: PG.Patches,
                inputs: seq<Packet>, heard: seq<PATResult>, q: Params)
    requires UsedWell(before, was, inputs, heard, q) && before <= after && PG.UsedFrom(after, |before|, patches)
    requires |after| <= |PlanOf(inputs, heard, q).arrived|
    requires if FirstHasEntries(PlanOf(inputs, heard, q).arrived) then before == [] || was == patches
             else |before| == |PlanOf(inputs, heard, q).arrived|
    ensures UsedWell(after, patches, inputs, heard, q)
  {
    hide PlanOf, PatchesFor;
    assert UnfoldUsed(0);
    if FirstHasEntries(PlanOf(inputs, heard, q).arrived) {
      UsedOn(before, after, patches);
    } else {
      assert after == before;
    }
  }

  /** One more PMT, when PMTs have come before or it has no entries itself. */
  lemma UsedPMT(before: seq<PG.Patches>, after: seq<PG.Patches>, patches: PG.Patches, inputs: seq<Packet>,
                heard: seq<PATResult>, q: Params, p: Packet, h: PATResult, a: PG.Arrival)
    requires UsedWell(before, patches, inputs, heard, q) && patches == PatchesAt(inputs, heard, q)
    requires before <= after && PG.UsedFrom(after, |before|, patches)
    requires var plan := PlanOf(inputs, heard, q);
      && PlanOf(inputs + [p], heard + [h], q).arrived == plan.arrived + [a] && a.token == |inputs|
      && |after| <= |plan.arrived| + 1 && (FirstHasEntries(plan.arrived) || |before| == |plan.arrived|)
      && (FirstHasEntries(plan.arrived + [a]) ==> FirstHasEntries(plan.arrived))
    ensures UsedWell(after, patches, inputs + [p], heard + [h], q)
  {
    hide PlanOf, PatchesAt;
    assert UnfoldUsed(0);
    var plan := PlanOf(inputs, heard, q);
    if FirstHasEntries(plan.arrived) {
      UsedOn(before, after, patches);
    } else {
      forall k | 0 <= k < |after| ensures after[k] == PatchesFor(inputs + [p], heard + [h], q, k) {
        if k < |before| {
          assert after[k] == before[k];
          SameUpto(inputs, heard, q, p, h, k);
        } else {
          assert (inputs + [p])[..|inputs|] == inputs && (heard + [h])[..|inputs|] == heard;
        }
      }
    }
  }

  // ---- a run that comes to its end has succeeded ----

  lemma UsedIs(used: seq<PG.Patches>, patches: PG.Patches, inputs: seq<Packet>, heard: seq<PATResult>, q: Params,
               k: nat)
    requires UsedWell(used, patches, inputs, heard, q) && k < |used| && patches == PatchesAt(inputs, heard, q)
    ensures k < |PlanOf(inputs, heard, q).arrived| && used[k] == PatchesFor(inputs, heard, q, k)
  {
    hide PlanOf, PatchesAt;
    assert UnfoldUsed(0);
  }

  lemma GateIsDone(released: seq<CompletedSlot>, used: seq<PG.Patches>, patches: PG.Patches, slots: seq<Slot<Output>>,
                   inputs: seq<Packet>, heard: seq<PATResult>, q: Params)
    requires |inputs| == |heard| && UsedWell(used, patches, inputs, heard, q) && patches == PatchesAt(inputs, heard, q)
    requires var arrived := PlanOf(inputs, heard, q).arrived;
      PG.AllReleased(released, arrived, used, q.inputEncrypted) && |released| == |arrived|
    requires Placed(slots, released)
    ensures var arrived := PlanOf(inputs, heard, q).arrived;
      forall k :: 0 <= k < |arrived| ==> PMTDone(arrived[k], PatchesFor(inputs, heard, q, k), Values(slots))
  {
    hide PlanOf, PatchesFor, PatchesAt;
    assert PG.UnfoldReleased(0) && UnfoldPlaced(0);
    var arrived := PlanOf(inputs, heard, q).arrived;
    forall k | 0 <= k < |arrived| ensures PMTDone(arrived[k], PatchesFor(inputs, heard, q, k), Values(slots)) {
      UsedIs(used, patches, inputs, heard, q, k);
      assert PG.ReleasedAs(released[k], arrived[k], used[k], arrived[0], q.inputEncrypted);
      assert slots[released[k].token] == Slot(released[k].packets, true);
    }
  }

  lemma StreamsAreDone(inputs: seq<Packet>, route: seq<Owner>, views: map<nat, View>, slots: seq<Slot<Output>>,
                       flushed: map<nat, seq<CompletedSlot>>)
    requires Logged(inputs, route, views, slots) && flushed.Keys == views.Keys
    requires forall pid :: pid in views ==> Delivered(pid, views[pid], flushed[pid])
    requires forall pid :: pid in flushed ==> Placed(slots, flushed[pid])
    ensures forall pid :: pid in views ==> StreamDone(pid, views[pid].kind, inputs, route, Values(slots))
  {
    hide Delivered, StreamDone, StreamLogged;
    assert UnfoldLogged(0);
    forall pid | pid in views ensures StreamDone(pid, views[pid].kind, inputs, route, Values(slots)) {
      StreamIsDone(pid, views[pid], flushed[pid], inputs, route, slots);
    }
  }

  lemma OthersAreDone(inputs: seq<Packet>, route: seq<Owner>, views: map<nat, View>, slots: seq<Slot<Output>>)
    requires Logged(inputs, route, views, slots)
    ensures forall t :: 0 <= t < |slots| && route[t] == Current ==> Values(slots)[t] == [inputs[t]]
  {
    assert UnfoldLogged(0) && UnfoldPassed(0);
  }

  /** When all owners are done the run has written what it has to, and its input was sound. */
  lemma AllDone(inputs: seq<Packet>, heard: seq<PATResult>, q: Params, views: map<nat, View>, slots: seq<Slot<Output>>)
    requires |inputs| == |heard| && StepsFine(inputs, heard, q)
    requires var plan := PlanOf(inputs, heard, q);
      && Logged(inputs, plan.route, views, slots) && KindsOf(views) == Kinds(plan)
      && (forall pid :: pid in views ==> StreamDone(pid, views[pid].kind, inputs, plan.route, Values(slots)))
      && forall k :: 0 <= k < |plan.arrived| ==>
           PMTDone(plan.arrived[k], PatchesFor(inputs, heard, q, k), Values(slots))
    ensures Remuxed(inputs, heard, q, Values(slots)) && Sound(inputs, heard, q)
  {
    hide PlanOf, PatchesFor, PG.Outgoing;
    var plan := PlanOf(inputs, heard, q);
    OthersAreDone(inputs, plan.route, views, slots);
    forall pid | pid in Kinds(plan) ensures StreamDone(pid, Kinds(plan)[pid], inputs, plan.route, Values(slots)) {
      assert pid in KindsOf(views);
    }
  }

  // ---- an input that has gone wrong does not become sound again ----

  lemma {:induction false} PacketsPrefix(inputs: seq<Packet>, route: seq<Owner>, who: Owner, t: nat)
    requires t <= |route| == |inputs|
    ensures PacketsOf(inputs[..t], route[..t], who) <= PacketsOf(inputs, route, who)
    decreases |route|
  {
    var n := |route| - 1;
    if t <= n {
      PacketsPrefix(inputs[..n], route[..n], who, t);
      assert route[..n][..t] == route[..t] && inputs[..n][..t] == inputs[..t];
    } else {
      assert route[..t] == route && inputs[..t] == inputs;
    }
  }

  lemma StreamBefore(k: Kind, before: seq<Packet>, all: seq<Packet>)
    requires StreamFine(k, all) && before <= all
    ensures StreamGoing(k, before) && (PatchAfter(k, before).Some? ==> PatchAfter(k, all) == PatchAfter(k, before))
  {
    hide Fine, Acceptable, SetupFor;
    assert all[..|before|] == before;
    FineBefore(CodecFor(k), all, |before|);
    if SetupFor(CodecFor(k), before).Some? {
      SetupForLonger(CodecFor(k), all, |before|);
    }
    forall i | 0 <= i < |before| ensures PusiHasPayload(before[i]) {
      assert before[i] == all[i];
    }
  }

  /** Once every awaited stream has signalled the patches do not change any more. */
  lemma PatchesStay(inputs: seq<Packet>, heard: seq<PATResult>, q: Params, t: nat)
    requires Sound(inputs, heard, q) && t <= |inputs|
    requires FirstHasEntries(PlanOf(inputs[..t], heard[..t], q).arrived)
    requires PG.AllSignalled(PatchesAt(inputs[..t], heard[..t], q))
    ensures PatchesAt(inputs, heard, q) == PatchesAt(inputs[..t], heard[..t], q)
  {
    hide PlanOf, PatchAfter, StreamFine, StreamGoing, Fits, PatchesFor;
    var a, b := PlanOf(inputs[..t], heard[..t], q), PlanOf(inputs, heard, q);
    PlanPrefix(inputs, heard, q, t);
    assert UnfoldExtends(0);
    HasStreams(inputs[..t], heard[..t], q);
    assert Kinds(a) == Kinds(b) && a.route == b.route[..t];
    var patches := PatchesIn(a, inputs[..t]);
    forall pid | pid in Kinds(a)
      ensures PatchAfter(Kinds(b)[pid], PacketsOf(inputs, b.route, Stream(pid))) == patches[pid]
    {
      PacketsPrefix(inputs, b.route, Stream(pid), t);
      assert pid in patches && patches[pid].Some?;
      StreamBefore(Kinds(b)[pid], PacketsOf(inputs[..t], a.route, Stream(pid)),
        PacketsOf(inputs, b.route, Stream(pid)));
    }
  }

  lemma HasStreams(inputs: seq<Packet>, heard: seq<PATResult>, q: Params)
    requires |inputs| == |heard| && FirstHasEntries(PlanOf(inputs, heard, q).arrived)
    ensures PlanOf(inputs, heard, q).streams.Some?
  {
    hide PlanOf;
    var f := StreamsOrigin(inputs, heard, q);
  }

  lemma StepsBefore(inputs: seq<Packet>, heard: seq<PATResult>, q: Params, t: nat)
    requires StepsFine(inputs, heard, q) && t <= |inputs|
    ensures StepsFine(inputs[..t], heard[..t], q)
  {
    hide PlanOf, StepFine;
    assert UnfoldSteps(0);
    forall i | 0 <= i < t
      ensures StepFine(PlanOf(inputs[..t][..i], heard[..t][..i], q), inputs[..t][i], heard[..t][i])
    {
      assert inputs[..t][..i] == inputs[..i] && heard[..t][..i] == heard[..i];
    }
  }

  lemma SoundBefore(inputs: seq<Packet>, heard: seq<PATResult>, q: Params, t: nat)
    requires Sound(inputs, heard, q) && t <= |inputs|
    ensures SoundSofar(inputs[..t], heard[..t], q)
  {
    hide PlanOf, StreamFine, StreamGoing;
    StepsBefore(inputs, heard, q, t);
    var a, b := PlanOf(inputs[..t], heard[..t], q), PlanOf(inputs, heard, q);
    PlanPrefix(inputs, heard, q, t);
    assert UnfoldExtends(0);
    assert a.route == b.route[..t];
    forall pid | pid in Kinds(a) ensures StreamGoing(Kinds(a)[pid], PacketsOf(inputs[..t], a.route, Stream(pid))) {
      PacketsPrefix(inputs, b.route, Stream(pid), t);
      StreamBefore(Kinds(a)[pid], PacketsOf(inputs[..t], a.route, Stream(pid)),
        PacketsOf(inputs, b.route, Stream(pid)));
    }
    forall k | 0 <= k < |a.arrived| ensures !PG.Misfit(a.arrived[k], PatchesFor(inputs[..t], heard[..t], q, k)) {
      FitsBefore(inputs, heard, q, t, k);
    }
  }

  lemma FitsBefore(inputs: seq<Packet>, heard: seq<PATResult>, q: Params, t: nat, k: nat)
    requires Sound(inputs, heard, q) && t <= |inputs| && k < |PlanOf(inputs[..t], heard[..t], q).arrived|
    ensures !PG.Misfit(PlanOf(inputs[..t], heard[..t], q).arrived[k], PatchesFor(inputs[..t], heard[..t], q, k))
  {
    hide PlanOf, PatchesAt, StreamFine, PG.Outgoing;
    var a, b := PlanOf(inputs[..t], heard[..t], q), PlanOf(inputs, heard, q);
    PlanPrefix(inputs, heard, q, t);
    assert UnfoldExtends(0) && PG.UnfoldMisfit(0);
    assert a.arrived[k] == b.arrived[k] && a.arrived[0] == b.arrived[0];
    assert Fits(b.arrived[k], PatchesFor(inputs, heard, q, k));
    if FirstHasEntries(a.arrived) {
      if PG.AllSignalled(PatchesAt(inputs[..t], heard[..t], q)) {
        PatchesStay(inputs, heard, q, t);
      }
    } else {
      GateHasArrived(inputs[..t], heard[..t], q);
      var s := a.arrived[k].token;
      assert inputs[..t][..s] == inputs[..s] && heard[..t][..s] == heard[..s];
    }
  }

  // ---- what goes wrong ----

  lemma StepsNext(inputs: seq<Packet>, heard: seq<PATResult>, q: Params, p: Packet, h: PATResult)
    requires StepsFine(inputs, heard, q)
    ensures StepsFine(inputs + [p], heard + [h], q) <==> StepFine(PlanOf(inputs, heard, q), p, h)
  {
    hide PlanOf, StepFine;
    assert UnfoldSteps(0);
    var n := |inputs|;
    assert (inputs + [p])[..n] == inputs && (heard + [h])[..n] == heard;
    forall t | 0 <= t < n
      ensures StepFine(PlanOf((inputs + [p])[..t], (heard + [h])[..t], q), (inputs + [p])[t], (heard + [h])[t])
    {
      assert (inputs + [p])[..t] == inputs[..t] && (heard + [h])[..t] == heard[..t];
    }
  }

  /** Some PMT that is to be released does not fit. Nobody awaited, there is none. */
  lemma MisfitSpoils(inputs: seq<Packet>, heard: seq<PATResult>, q: Params, patches: PG.Patches, n: nat)
    requires |inputs| == |heard| && patches == PatchesAt(inputs, heard, q)
    requires var arrived := PlanOf(inputs, heard, q).arrived;
      PG.SomeMisfit(arrived, n, patches) && (FirstHasEntries(arrived) || n == |arrived|)
    ensures !SoundSofar(inputs, heard, q)
  {
    hide PlanOf, PatchesAt, StreamGoing, PG.Misfit;
    assert UnfoldSofar(0);
  }

  lemma PMTNext(inputs: seq<Packet>, heard: seq<PATResult>, q: Params, p: Packet, h: PATResult, a: PG.Arrival)
    requires |inputs| == |heard| && p.pid == PlanOf(inputs, heard, q).pmtPID != PAT_PID && Took(a, |inputs|, p)
    ensures var plan := PlanOf(inputs, heard, q);
      PlanOf(inputs + [p], heard + [h], q) ==
        Plan(plan.pmtPID, plan.route + [Gate], plan.arrived + [a],
             if plan.streams.None? && a.syntax.pmt.streams != [] then Some(KindsFrom(a.syntax.pmt.streams, q))
             else plan.streams)
  {
    hide PlanOf, KindsFrom, TakesPacket;
    PlanSnoc(inputs, heard, q, p, h);
    assert PG.UnfoldCollects(0);
  }

  lemma ElseNext(inputs: seq<Packet>, heard: seq<PATResult>, q: Params, p: Packet, h: PATResult)
    requires |inputs| == |heard|
    ensures var plan, next := PlanOf(inputs, heard, q), PlanOf(inputs + [p], heard + [h], q);
      && (p.pid == PAT_PID ==>
            next == plan.(pmtPID := if h.Program? then h.pmtPID else plan.pmtPID, route := plan.route + [Current]))
      && (p.pid == plan.pmtPID != PAT_PID && PG.CollectsAs(p, PG.NoPMT) ==>
            next == plan.(route := plan.route + [Current]))
      && (p.pid != PAT_PID && p.pid != plan.pmtPID ==>
            next == plan.(route := plan.route + [if TakesPacket(plan, inputs, p) then Stream(p.pid) else Current]))
  {
    hide PlanOf, KindsFrom, TakesPacket;
    PlanSnoc(inputs, heard, q, p, h);
    assert PG.UnfoldCollects(0);
  }

  /** A packet for the PMT transformer leaves the patches as they are if streams are awaited. */
  lemma PatchesKept(inputs: seq<Packet>, heard: seq<PATResult>, q: Params, p: Packet, h: PATResult, a: PG.Arrival)
    requires |inputs| == |heard| && p.pid == PlanOf(inputs, heard, q).pmtPID != PAT_PID && Took(a, |inputs|, p)
    requires FirstHasEntries(PlanOf(inputs, heard, q).arrived)
    ensures PatchesAt(inputs + [p], heard + [h], q) == PatchesAt(inputs, heard, q)
  {
    hide PlanOf, PatchAfter;
    PMTNext(inputs, heard, q, p, h, a);
    HasStreams(inputs, heard, q);
    var plan := PlanOf(inputs, heard, q);
    forall pid: nat
      ensures PacketsOf(inputs + [p], plan.route + [Gate], Stream(pid)) == PacketsOf(inputs, plan.route, Stream(pid))
    {
      RouteSnoc(inputs, plan.route, p, Gate, Stream(pid));
    }
  }

  /** What the PMT transformer refuses is not sound. */
  lemma RefusedSpoils(inputs: seq<Packet>, heard: seq<PATResult>, q: Params, p: Packet, h: PATResult,
                      patches: PG.Patches, n: nat)
    requires StepsFine(inputs, heard, q) && patches == PatchesAt(inputs, heard, q)
    requires var plan := PlanOf(inputs, heard, q);
      && p.pid == plan.pmtPID != PAT_PID && Refused(|inputs|, p, plan.arrived, n, patches)
      && (FirstHasEntries(plan.arrived) || n == |plan.arrived|)
    ensures !SoundSofar(inputs + [p], heard + [h], q)
  {
    hide PlanOf, PatchesAt, StreamGoing, PG.Misfit;
    StepsNext(inputs, heard, q, p, h);
    if !PG.CollectsAs(p, PG.BadPMT) {
      var plan := PlanOf(inputs, heard, q);
      var a :| Took(a, |inputs|, p) && PG.SomeMisfit(plan.arrived + [a], n, patches);
      PMTNext(inputs, heard, q, p, h, a);
      if FirstHasEntries(plan.arrived) {
        PatchesKept(inputs, heard, q, p, h, a);
        MisfitSpoils(inputs + [p], heard + [h], q, patches, n);
      } else {
        NewestSpoils(inputs, heard, q, p, h, patches, a);
      }
    }
  }

  lemma NewestSpoils(inputs: seq<Packet>, heard: seq<PATResult>, q: Params, p: Packet, h: PATResult,
                     patches: PG.Patches, a: PG.Arrival)
    requires |inputs| == |heard| && patches == PatchesAt(inputs, heard, q) && a.token == |inputs|
    requires var plan := PlanOf(inputs, heard, q);
      && PlanOf(inputs + [p], heard + [h], q).arrived == plan.arrived + [a]
      && plan.arrived != [] && !FirstHasEntries(plan.arrived)
      && PG.SomeMisfit(plan.arrived + [a], |plan.arrived|, patches)
    ensures !SoundSofar(inputs + [p], heard + [h], q)
  {
    hide PlanOf, PatchesAt, StreamGoing, PG.Misfit;
    assert UnfoldSofar(0);
    assert (inputs + [p])[..|inputs|] == inputs && (heard + [h])[..|inputs|] == heard;
  }

  /** A packet that spoils the input of its stream. */
  lemma StreamSpoils(inputs: seq<Packet>, heard: seq<PATResult>, q: Params, p: Packet, h: PATResult, k: Kind)
    requires |inputs| == |heard|
    requires var plan, next := PlanOf(inputs, heard, q), PlanOf(inputs + [p], heard + [h], q);
      && next.route == plan.route + [Stream(p.pid)] && p.pid in Kinds(next) && Kinds(next)[p.pid] == k
      && !StreamGoing(k, PacketsOf(inputs, plan.route, Stream(p.pid)) + [p])
    ensures !SoundSofar(inputs + [p], heard + [h], q)
  {
    hide PlanOf, StreamGoing, PatchesFor;
    assert UnfoldSofar(0);
    RouteSnoc(inputs, PlanOf(inputs, heard, q).route, p, Stream(p.pid), Stream(p.pid));
  }

  /** A stream whose input was not fine, or an awaited stream that has not signalled. */
  lemma EndSpoils(inputs: seq<Packet>, heard: seq<PATResult>, q: Params, views: map<nat, View>, pid: nat)
    requires |inputs| == |heard|
    requires var plan := PlanOf(inputs, heard, q);
      && Sources(views, inputs, plan.route) && KindsOf(views) == Kinds(plan)
    requires pid in views && !StreamFine(views[pid].kind, views[pid].source)
    ensures !Sound(inputs, heard, q)
  {
    hide PlanOf, StreamFine, Fits;
    assert UnfoldSources(0);
    assert pid in KindsOf(views);
  }

  lemma HeldSpoils(inputs: seq<Packet>, heard: seq<PATResult>, q: Params, patches: PG.Patches)
    requires |inputs| == |heard| && patches == PatchesAt(inputs, heard, q) && !PG.AllSignalled(patches)
    requires FirstHasEntries(PlanOf(inputs, heard, q).arrived)
    ensures !Sound(inputs, heard, q)
  {
    hide PlanOf, PatchesAt, StreamFine;
    assert !Fits(PlanOf(inputs, heard, q).arrived[0], PatchesFor(inputs, heard, q, 0));
  }

  // ---- a first PMT without entries ----

  /** The patches never leave a stream out exactly if the first PMT has entries or there are no
    * streams at all. */
  ghost predicate EveryStreamPatches(inputs: seq<Packet>, heard: seq<PATResult>, q: Params)
    requires |inputs| == |heard|
  {
    var plan := PlanOf(inputs, heard, q);
    forall k, pid :: 0 <= k < |plan.arrived| && pid in Kinds(plan) ==> pid in PatchesFor(inputs, heard, q, k)
  }

  lemma PatchesExact(inputs: seq<Packet>, heard: seq<PATResult>, q: Params)
    requires |inputs| == |heard|
    ensures var plan := PlanOf(inputs, heard, q);
      && (EveryStreamPatches(inputs, heard, q) <==> FirstHasEntries(plan.arrived) || Kinds(plan) == map[])
      && (Kinds(plan).Keys <= AwaitedBy(plan.arrived, q) <==> FirstHasEntries(plan.arrived) || Kinds(plan) == map[])
  {
    hide PlanOf, PatchAfter;
    var plan := PlanOf(inputs, heard, q);
    AwaitedAreMade(inputs, heard, q);
    if !FirstHasEntries(plan.arrived) && Kinds(plan) != map[] {
      var f := StreamsOrigin(inputs, heard, q);
      assert UnfoldOrigin(0);
      var t := plan.arrived[f].token;
      var pid :| pid in Kinds(plan);
      assert Kinds(PlanOf(inputs[..t], heard[..t], q)) == map[];
      assert pid !in PatchesFor(inputs, heard, q, f);
    }
  }

  // ---- what one packet changes in the record of the PMT transformer ----

  lemma NoPMTNoStreams(inputs: seq<Packet>, heard: seq<PATResult>, q: Params)
    requires |inputs| == |heard| && PlanOf(inputs, heard, q).arrived == []
    ensures PlanOf(inputs, heard, q).streams.None?
  {
    hide PlanOf;
    assert UnfoldOrigin(0);
    var f := StreamsOrigin(inputs, heard, q);
  }

  /** While there are no streams there are no patches. */
  lemma NoPatches(patches: PG.Patches, inputs: seq<Packet>, heard: seq<PATResult>, q: Params)
    requires |inputs| == |heard| && PlanOf(inputs, heard, q).streams.None?
    requires Announced(patches, map[], AwaitedBy(PlanOf(inputs, heard, q).arrived, q))
    ensures patches == map[] && !FirstHasEntries(PlanOf(inputs, heard, q).arrived)
  {
    hide PlanOf;
    AwaitedAreMade(inputs, heard, q);
    if FirstHasEntries(PlanOf(inputs, heard, q).arrived) {
      HasStreams(inputs, heard, q);
    }
    NobodyAwaited(patches, map[]);
  }

  /** The PMT transformer has taken a PMT. */
  lemma GateTook(inputs: seq<Packet>, heard: seq<PATResult>, q: Params, p: Packet, h: PATResult, a: PG.Arrival,
                 views: map<nat, View>, before: PG.Patches, after: PG.Patches, used: seq<PG.Patches>,
                 more: seq<PG.Patches>)
    requires |inputs| == |heard| && UsedWell(used, before, inputs, heard, q)
    requires var plan := PlanOf(inputs, heard, q);
      && p.pid == plan.pmtPID != PAT_PID && Took(a, |inputs|, p)
      && Announced(before, views, AwaitedBy(plan.arrived, q)) && Sources(views, inputs, plan.route)
      && KindsOf(views) == Kinds(plan)
      && (if plan.arrived == [] then PG.Awaiting(after, a, q.inputEncrypted) else after == before)
      && |more| <= |plan.arrived| + 1 && (PG.AllSignalled(before) ==> |used| == |plan.arrived|)
    requires used <= more && PG.UsedFrom(more, |used|, after)
    ensures Announced(after, views, AwaitedBy(PlanOf(inputs + [p], heard + [h], q).arrived, q))
    ensures UsedWell(more, after, inputs + [p], heard + [h], q)
  {
    hide PlanOf, PatchesAt, Announced, KindsFrom, PG.UsedFrom;
    var plan := PlanOf(inputs, heard, q);
    PMTNext(inputs, heard, q, p, h, a);
    PatchesAre(before, views, inputs, heard, q);
    AwaitedAreMade(inputs, heard, q);
    if plan.arrived == [] {
      FirstTook(inputs, heard, q, p, h, a, views, before, after, used, more);
    } else {
      if !FirstHasEntries(plan.arrived) {
        NobodyAwaited(before, views);
      }
      UsedPMT(used, more, before, inputs, heard, q, p, h, a);
    }
  }

  /** It was the first one. */
  lemma FirstTook(inputs: seq<Packet>, heard: seq<PATResult>, q: Params, p: Packet, h: PATResult, a: PG.Arrival,
                  views: map<nat, View>, before: PG.Patches, after: PG.Patches, used: seq<PG.Patches>,
                  more: seq<PG.Patches>)
    requires |inputs| == |heard| && UsedWell(used, before, inputs, heard, q) && before == PatchesAt(inputs, heard, q)
    requires var plan := PlanOf(inputs, heard, q);
      && plan.arrived == [] && PlanOf(inputs + [p], heard + [h], q).arrived == [a] && a.token == |inputs|
      && Announced(before, views, AwaitedBy([], q)) && KindsOf(views) == Kinds(plan)
    requires PG.Awaiting(after, a, q.inputEncrypted) && |more| <= 1 && used <= more && PG.UsedFrom(more, |used|, after)
    ensures Announced(after, views, AwaitedBy([a], q))
    ensures UsedWell(more, after, inputs + [p], heard + [h], q)
  {
    hide PlanOf, PatchesAt, Announced, KindsFrom;
    NoPMTNoStreams(inputs, heard, q);
    assert views.Keys == KindsOf(views).Keys;
    assert UnfoldUsed(0);
    forall pid: nat ensures pid in after <==> pid in AwaitedBy([a], q) {
      KindsAwaited(a, q, pid);
    }
    assert after.Keys == AwaitedBy([a], q);
    NothingAnnounced(after, AwaitedBy([a], q));
    if !FirstHasEntries([a]) {
      assert after == map[];
      NoPatches(before, inputs, heard, q);
      assert used == [];
      UsedPMT([], more, after, inputs, heard, q, p, h, a);
    }
  }

  /** A stream has signalled, and some PMT does not fit. */
  lemma TellSpoils(inputs: seq<Packet>, heard: seq<PATResult>, q: Params, patches: PG.Patches, views: map<nat, View>,
                   n: nat)
    requires |inputs| == |heard|
    requires var plan := PlanOf(inputs, heard, q);
      && Announced(patches, views, AwaitedBy(plan.arrived, q)) && Sources(views, inputs, plan.route)
      && KindsOf(views) == Kinds(plan)
      && PG.SomeMisfit(plan.arrived, n, patches) && (FirstHasEntries(plan.arrived) || n == |plan.arrived|)
    ensures !SoundSofar(inputs, heard, q)
  {
    hide PlanOf, PatchesAt, PG.SomeMisfit;
    PatchesAre(patches, views, inputs, heard, q);
    MisfitSpoils(inputs, heard, q, patches, n);
  }

  /** The same while the streams are being made: when all have signalled all are there. */
  lemma MakingSpoils(inputs: seq<Packet>, heard: seq<PATResult>, q: Params, patches: PG.Patches, views: map<nat, View>,
                     n: nat)
    requires |inputs| == |heard|
    requires var plan := PlanOf(inputs, heard, q);
      && Announced(patches, views, AwaitedBy(plan.arrived, q)) && Sources(views, inputs, plan.route)
      && (forall pid :: pid in views ==> pid in Kinds(plan) && Kinds(plan)[pid] == views[pid].kind)
      && PG.SomeMisfit(plan.arrived, n, patches) && (FirstHasEntries(plan.arrived) || n == |plan.arrived|)
    ensures !SoundSofar(inputs, heard, q)
  {
    hide PlanOf, KindsFrom, PatchOf, SoundSofar;
    var plan := PlanOf(inputs, heard, q);
    AwaitedAreMade(inputs, heard, q);
    assert UnfoldAnnounced(0) && PG.UnfoldMisfit(0);
    if FirstHasEntries(plan.arrived) {
      forall pid | pid in Kinds(plan) ensures pid in views {
        assert pid in patches && patches[pid].Some?;
      }
      assert KindsOf(views) == Kinds(plan);
      TellSpoils(inputs, heard, q, patches, views, n);
    }
  }
}
