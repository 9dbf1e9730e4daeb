/** ts/remuxer.go: every input packet reserves an output slot, and exactly one of the packet
  * itself, its media stream or the PMT transformer completes it.
  *
  * What PAT parsing finds is given as an argument of each call.
  */
module Remuxer {
  import opened Bytes
  import opened Cipher
  import opened Wrappers
  import opened Packets
  import opened AlignerModel
  import opened CommitQueues
  import opened PsiSections
  import PG = PmtGate
  import opened Ownership
  import opened StreamModel
  import opened MediaStreams
  import opened PesShapes
  import opened StreamFactory
  import opened Lanes
  import opened SlotRouters
  import opened RemuxLog
  import opened Routing
  import opened RemuxResult

  lemma ViewChanged(views: map<nat, View>, pid: nat, w: View, before: seq<nat>)
    ensures OpenOf(views[pid := w]) == OpenOf(views)[pid := w.open] == OpenOf(views)[pid := before][pid := w.open]
    ensures KindsOf(views[pid := w]) == KindsOf(views)[pid := w.kind]
    ensures pid in views && views[pid].kind == w.kind ==> KindsOf(views[pid := w]) == KindsOf(views)
  {
  }

  lemma NoViews()
    ensures OpenOf(map[]) == map[] && KindsOf(map[]) == map[]
  {
  }

  lemma NothingMade(views: map<nat, View>)
    requires KindsOf(views) == map[]
    ensures views == map[]
  {
    assert views.Keys == KindsOf(views).Keys;
  }

  lemma Smaller<T>(m: map<nat, T>, pid: nat)
    requires pid in m
    ensures |m - {pid}| < |m|
  {
    assert (m - {pid}).Keys == m.Keys - {pid};
    assert |m - {pid}| == |(m - {pid}).Keys| && |m| == |m.Keys|;
  }

  ghost predicate UnfoldOpen(k: int) { true }

  /** The streams in `rest` still have their open slots; the others have handed back all of
    * theirs. Sealed. */
  ghost predicate StillOpen(views: map<nat, View>, rest: map<nat, View>, flushed: map<nat, seq<CompletedSlot>>,
                            open: map<nat, seq<nat>>) {
    forall k {:trigger UnfoldOpen(k)} :: UnfoldOpen(k) ==>
      && open.Keys == views.Keys == rest.Keys + flushed.Keys && rest.Keys !! flushed.Keys
      && (forall pid :: pid in rest ==> rest[pid] == views[pid] && open[pid] == rest[pid].open)
      && (forall pid :: pid in flushed ==> Delivered(pid, views[pid], flushed[pid]) && open[pid] == [])
  }

  lemma NoneFlushed(views: map<nat, View>)
    ensures StillOpen(views, views, map[], OpenOf(views))
  {
  }

  lemma OneIsOpen(views: map<nat, View>, rest: map<nat, View>, flushed: map<nat, seq<CompletedSlot>>,
    open: map<nat, seq<nat>>,
                  pid: nat)
    requires StillOpen(views, rest, flushed, open) && pid in rest
    ensures pid in open && open[pid] == rest[pid].open && pid !in flushed
  {
    assert UnfoldOpen(0);
  }

  lemma OneLessOpen(views: map<nat, View>, rest: map<nat, View>, flushed: map<nat, seq<CompletedSlot>>,
    open: map<nat, seq<nat>>,
                    pid: nat, completed: seq<CompletedSlot>)
    requires StillOpen(views, rest, flushed, open) && pid in rest && Delivered(pid, rest[pid], completed)
    ensures StillOpen(views, rest - {pid}, flushed[pid := completed], open[pid := []])
  {
    hide Delivered;
    assert UnfoldOpen(0);
  }

  lemma AllFlushed(views: map<nat, View>, flushed: map<nat, seq<CompletedSlot>>, open: map<nat, seq<nat>>)
    requires StillOpen(views, map[], flushed, open)
    ensures flushed.Keys == views.Keys && forall pid :: pid in views ==> Delivered(pid, views[pid], flushed[pid])
    ensures forall pid :: pid in open ==> open[pid] == []
  {
    assert UnfoldOpen(0);
  }

  lemma OnlyPlaced(before: seq<Slot<Ownership.Output>>, after: seq<Slot<Ownership.Output>>, flushed: map<nat,
    seq<CompletedSlot>>)
    requires Only(before, after, flushed)
    ensures |after| == |before| && forall pid :: pid in flushed ==> Placed(after, flushed[pid])
  {
  }

  ghost predicate SomeOf(some: map<nat, Kind>, all: map<nat, Kind>) {
    forall pid :: pid in some ==> pid in all && all[pid] == some[pid]
  }

  lemma NotBad(p: Packet)
    requires PG.CollectsAs(p, PG.NoPMT)
    ensures !PG.CollectsAs(p, PG.BadPMT)
  {
    assert PG.UnfoldCollects(0);
  }

  lemma TookIsFine(p: Packet, token: nat, a: PG.Arrival)
    requires Took(a, token, p)
    ensures !PG.CollectsAs(p, PG.BadPMT)
  {
    assert PG.UnfoldCollects(0);
  }

  lemma NothingTold(views: map<nat, View>, pid: nat, w: View)
    requires if pid in views then w.kind == views[pid].kind && Told(w) == Told(views[pid]) else Told(w).None?
    ensures if pid in views then PatchOf(w) == PatchOf(views[pid]) else PatchOf(w).None?
  {
  }

  class Remuxer {
    const router: SlotRouter
    const params: Params
    var pmtPID: nat
    /** The streams have been made. */
    var made: bool
    var streams: map<nat, MediaStream>
    var kinds: map<nat, Kind>

    /** What the streams have been given and have handed back, and their objects. */
    ghost var views: map<nat, View>
    ghost var objects: set<object>
    /** The packets so far, and what was heard from the PAT with each. */
    ghost var inputs: seq<Packet>
    ghost var heard: seq<PATResult>

    ghost function Slots(): seq<Slot<Ownership.Output>>
      reads router.output.queue
    {
      router.output.queue.all
    }

    /** What the input so far has led to. */
    ghost function Now(): Plan
      requires |inputs| == |heard|
      reads this
    {
      PlanOf(inputs, heard, params)
    }

    /** What the streams change and what the rest changes are different objects. */
    ghost predicate Separate()
      reads this, router, router.pmt
    {
      this !in router.Objects() && this !in objects && objects !! router.Objects()
    }

    /** The streams are as recorded. */
    ghost predicate Steady()
      reads this, objects, router, router.pmt
    {
      && Separate() && LanesAre(streams, views, objects)
      && router.streams == OpenOf(views) && kinds == KindsOf(views)
    }

    /** The streams are those that the input has brought. */
    ghost predicate Made()
      requires |inputs| == |heard|
      reads this
    {
      && (made <==> Now().streams.Some?) && kinds == Kinds(Now())
    }

    /** The PMT transformer knows the PMTs of the input and what each stream has signalled, and
      * has used nothing else. */
    ghost predicate Informed()
      requires |inputs| == |heard|
      reads this, router.pmt
    {
      && router.pmt.arrived == Now().arrived && router.pmt.inputEncrypted == params.inputEncrypted
      && Announced(router.pmt.patches, views, AwaitedBy(router.pmt.arrived, params))
      && UsedWell(router.pmt.used, router.pmt.patches, inputs, heard, params)
    }

    ghost predicate Recorded(slots: seq<Slot<Ownership.Output>>)
      reads this
    {
      |inputs| == |heard| && Logged(inputs, Now().route, views, slots) && StepsFine(inputs, heard, params)
    }

    ghost predicate Valid()
      reads this, objects, router, router.output, router.output.queue, router.output.writer, router.pmt,
        router.pmt.collector, PG.Objects(router.pmt.pending)
    {
      && router.Valid() && Steady() && Recorded(Slots()) && Made() && Informed()
      && pmtPID == Now().pmtPID
    }

    /** A packet has reserved its slot. */
    ghost predicate Handling(token: nat, before: seq<Slot<Ownership.Output>>)
      reads this, objects, router, router.output, router.output.queue, router.output.writer, router.pmt,
        router.pmt.collector, PG.Objects(router.pmt.pending)
    {
      && router.Working([token]) && Steady() && Recorded(before) && Made() && Informed()
      && |Slots()| == token + 1 && |before| == token == |inputs| && Kept(before, Slots())
    }

    /** This is the way of the packet, which brings no PMT, and pmtPID is as it will have to be. */
    ghost predicate Due(p: Packet, h: PATResult, w: Owner)
      requires |inputs| == |heard|
      reads this
    {
      && PlanOf(inputs + [p], heard + [h], params) == Now().(route := Now().route + [w], pmtPID := pmtPID)
      && StepFine(Now(), p, h)
    }

    constructor (params: Params, fails: nat -> bool)
      ensures Valid() && inputs == [] && heard == [] && streams == map[] && objects == {} && !made
      ensures fresh(router) && fresh(router.Objects()) && router.output.writer.out == []
      ensures router.output.writer.fails == fails && this.params == params
    {
      hide LanesAre, LaneIs;
      router := new SlotRouter(params.inputEncrypted, fails);
      this.params := params;
      pmtPID, made, streams, kinds := 0, false, map[], map[];
      views, objects, inputs, heard := map[], {}, [], [];
      new;
      NoLanes();
      NoViews();
      NothingLogged();
      NothingAnnounced(router.pmt.patches, {});
      router.ReleasedSofar();
      RemuxResult.NothingUsed(params);
    }

    method Reserve() returns (token: nat)
      requires Valid()
      modifies router.output.queue, router`owner
      ensures Handling(token, old(Slots())) && pmtPID == Now().pmtPID
    {
      hide LanesAre, LaneIs, PlanOf;
      token := router.Reserve();
      LoggedLength(inputs, Now().route, views, old(Slots()));
    }

    /** What has happened to a packet is recorded. */
    ghost method Record(p: Packet, h: PATResult, w: Owner, changed: map<nat, View>)
      requires |inputs| == |heard| && Due(p, h, w) && StepsFine(inputs, heard, params)
      requires router.Valid() && Separate() && LanesAre(streams, changed, objects) && router.streams == OpenOf(changed)
      requires kinds == KindsOf(changed) && Made()
      requires router.pmt.arrived == Now().arrived && router.pmt.inputEncrypted == params.inputEncrypted
      requires Announced(router.pmt.patches, changed, AwaitedBy(router.pmt.arrived, params))
      requires UsedWell(router.pmt.used, router.pmt.patches, inputs, heard, params)
      requires Logged(inputs + [p], Now().route + [w], changed, Slots())
      modifies this`inputs, this`heard, this`views
      ensures Valid() && inputs == old(inputs) + [p] && heard == old(heard) + [h]
    {
      hide LanesAre, LaneIs, SlotRouter.Working, SlotRouter.Valid, Logged, PlanOf, Announced, KindsOf, OpenOf, StepFine,
        UsedWell, AwaitedBy;
      StepsNext(inputs, heard, params, p, h);
      UsedSame(router.pmt.used, router.pmt.patches, inputs, heard, params, p, h);
      inputs, heard, views := inputs + [p], heard + [h], changed;
    }

    /** The packet completes its own slot. */
    method PassOn(token: nat, p: Packet, ghost h: PATResult, ghost before: seq<Slot<Ownership.Output>>)
        returns (r: Outcome)
      requires Handling(token, before) && Due(p, h, Current)
      modifies router.output.queue, router.output.writer, router`owner, this`inputs, this`heard, this`views
      ensures r == Done || (r == WriteFailed && router.output.Broken())
      ensures r == Done ==> Valid() && inputs == old(inputs) + [p] && heard == old(heard) + [h]
    {
      hide LanesAre, LaneIs, Logged, PlanOf, Announced, KindsOf, OpenOf, StepFine, UsedWell, AwaitedBy;
      ghost var reserved := Slots();
      r := router.PassThrough(token, p);
      if r == Done {
        KeptTwice(before, reserved, Slots());
        LoggedElse(inputs, Now().route, views, before, Slots(), p, Current);
        Record(p, h, Current, views);
      }
    }

    // ---- a media stream ----

    /** The stream takes the packet; what it hands back is not yet committed. */
    method FeedLane(token: nat, p: Packet, ghost before: seq<Slot<Ownership.Output>>)
        returns (ok: bool, completed: seq<CompletedSlot>, ghost w: View)
      requires Handling(token, before) && p.pid in streams
      requires (p.pusi || !p.hasPayload || streams[p.pid].collector.active)
      modifies router`owner, router`streams, objects
      ensures p.pid in views && (Welcome(p.pid, views[p.pid], p) ==> ok)
      ensures ok ==> router.Valid() && LanesAre(streams, views[p.pid := w], objects)
      ensures ok ==> streams[p.pid].Setup() == Told(w)
      ensures ok ==> Advanced(views[p.pid], w, token, p, completed)
      ensures ok ==> router.streams == OpenOf(views)[p.pid := views[p.pid].open + [token]]
    {
      hide LanesAre, LaneIs, Logged, PlanOf, Announced, Kept, UsedWell, AwaitedBy, Advanced;
      OneOfThem(streams, views, objects, p.pid);
      router.GiveToStream(token, p.pid);
      ok, completed, w := LanesConsume(streams, views, objects, p.pid, token, p);
    }

    /** A stream has something to signal, which it had not before. */
    method Announce(pid: nat, setup: seq<byte>, ghost before: map<nat, View>, ghost w: View, ghost awaited: set<nat>)
        returns (r: Outcome, ghost patches: PG.Patches)
      requires router.Valid() && LanesAre(streams, before[pid := w], objects) && Separate()
      requires Announced(router.pmt.patches, before, awaited) && (awaited != {} ==> pid in awaited)
      requires pid in before ==> Told(before[pid]).None?
      requires pid in kinds && kinds[pid] == w.kind && Told(w) == Some(setup)
      modifies router.pmt, PG.Objects(router.pmt.pending), router.output.queue, router.output.writer, router`owner
      ensures r == Done || r == PMTError || (r == WriteFailed && router.output.Broken())
      ensures LanesAre(streams, before[pid := w], objects) && Announced(patches, before[pid := w], awaited)
      ensures r == PMTError ==> PG.SomeMisfit(old(router.pmt.arrived), |old(router.pmt.released)|, patches)
      ensures r == Done ==> router.Valid() && Separate() && router.pmt.arrived == old(router.pmt.arrived)
      ensures r == Done ==> router.pmt.patches == patches && |router.pmt.used| <= |router.pmt.arrived|
      ensures r == Done ==> old(router.pmt.used) <= router.pmt.used
      ensures r == Done ==> PG.UsedFrom(router.pmt.used, |old(router.pmt.used)|, patches)
      ensures awaited != {} ==> old(router.pmt.used) == []
      ensures awaited == {} ==> |old(router.pmt.used)| == |old(router.pmt.released)| == |old(router.pmt.arrived)|
      ensures r == Done ==> Kept(old(Slots()), Slots()) && |Slots()| == |old(Slots())|
      ensures r == Done ==> PG.Objects(router.pmt.pending) <= old(PG.Objects(router.pmt.pending))
    {
      hide LanesAre, LaneIs, Announced, PatchFor;
      router.ReleasedSofar();
      if awaited != {} {
        NotAnnounced(router.pmt.patches, before, awaited, pid);
      } else {
        NobodyAwaited(router.pmt.patches, before);
      }
      AnnouncedNow(router.pmt.patches, before, awaited, pid, w);
      patches := router.pmt.patches[pid := Some(PatchFor(kinds[pid], setup))];
      r := router.Signal(pid, PatchFor(kinds[pid], setup), []);
      if r == Done {
        router.ReleasedSofar();
      }
    }

    /** What a stream has newly signalled goes to the PMT transformer. If that fails, some PMT
      * does not fit. */
    method Tell(pid: nat, setup: Option<seq<byte>>, ghost before: map<nat, View>, ghost w: View)
        returns (r: Outcome, ghost patches: PG.Patches)
      requires |inputs| == |heard| && pid in streams && streams[pid].Setup() == Told(w)
      requires router.Valid() && LanesAre(streams, before[pid := w], objects) && Separate()
      requires router.pmt.arrived == Now().arrived
      requires Announced(router.pmt.patches, before, AwaitedBy(Now().arrived, params))
      requires UsedWell(router.pmt.used, router.pmt.patches, inputs, heard, params)
      requires pid in Kinds(Now()) && pid in kinds && kinds[pid] == w.kind
      requires setup == if pid in before then Told(before[pid]) else None
      requires pid in before ==> before[pid].kind == w.kind && (setup.Some? ==> Told(w) == setup)
      modifies router.pmt, PG.Objects(router.pmt.pending), router.output.queue, router.output.writer, router`owner
      ensures r == Done || r == PMTError || (r == WriteFailed && router.output.Broken())
      ensures LanesAre(streams, before[pid := w], objects)
      ensures Announced(patches, before[pid := w], AwaitedBy(Now().arrived, params))
      ensures r == PMTError ==> PG.SomeMisfit(Now().arrived, |old(router.pmt.released)|, patches)
      ensures r == PMTError ==> FirstHasEntries(Now().arrived) || |old(router.pmt.released)| == |Now().arrived|
      ensures r == Done ==> router.Valid() && Separate() && router.pmt.arrived == Now().arrived
      ensures r == Done ==> router.pmt.patches == patches && UsedWell(router.pmt.used, patches, inputs, heard, params)
      ensures r == Done ==> Kept(old(Slots()), Slots()) && |Slots()| == |old(Slots())|
      ensures r == Done ==> PG.Objects(router.pmt.pending) <= old(PG.Objects(router.pmt.pending))
    {
      hide LanesAre, LaneIs, Announced, PG.UsedFrom, SlotRouter.Working, SlotRouter.Valid, PlanOf, KindsFrom,
        UsedWell, Told;
      var now := streams[pid].Setup();
      AwaitedAreMade(inputs, heard, params);
      if setup.None? && now.Some? {
        ghost var used, was := router.pmt.used, router.pmt.patches;
        r, patches := Announce(pid, now.value, before, w, AwaitedBy(Now().arrived, params));
        if r == Done {
          UsedNow(used, router.pmt.used, was, patches, inputs, heard, params);
        }
      } else {
        NothingTold(before, pid, w);
        AnnouncedSame(router.pmt.patches, before, AwaitedBy(Now().arrived, params), pid, w);
        KeptItself(Slots());
        r, patches := Done, router.pmt.patches;
      }
    }

    /** What the stream has handed back is committed. */
    method Settle(pid: nat, p: Packet, completed: seq<CompletedSlot>, ghost w: View, ghost h: PATResult,
                  ghost before: seq<Slot<Ownership.Output>>)
        returns (r: Outcome)
      requires router.Valid() && pid in views && LanesAre(streams, views[pid := w], objects) && Separate()
      requires Recorded(before) && Made() && Due(p, h, Stream(pid)) && Advanced(views[pid], w, |before|, p, completed)
      requires kinds == KindsOf(views) && router.streams == OpenOf(views)[pid := views[pid].open + [|before|]]
      requires p.pid == pid && router.pmt.arrived == Now().arrived && router.pmt.inputEncrypted == params.inputEncrypted
      requires Announced(router.pmt.patches, views[pid := w], AwaitedBy(Now().arrived, params))
      requires UsedWell(router.pmt.used, router.pmt.patches, inputs, heard, params)
      requires Kept(before, Slots()) && |Slots()| == |before| + 1
      modifies router.output.queue, router.output.writer, router`owner, router`streams, this`inputs, this`heard,
        this`views
      ensures r == Done || (r == WriteFailed && router.output.Broken())
      ensures r == Done ==> Valid() && inputs == old(inputs) + [p] && heard == old(heard) + [h]
    {
      hide LanesAre, LaneIs, SlotRouter.Working, SlotRouter.Valid, Logged, PlanOf, Announced, Kept, KindsOf, OpenOf,
        UsedWell, AwaitedBy, StepFine;
      ghost var middle := Slots();
      ViewChanged(views, pid, w, views[pid].open + [|before|]);
      r := router.CommitStream(pid, completed, w.open);
      if r == Done {
        KeptTwice(before, middle, Slots());
        LoggedStream(inputs, Now().route, views, before, Slots(), p, pid, w, completed);
        Record(p, h, Stream(pid), views[pid := w]);
      }
    }

    /** A PMT that does not fit now that the stream has signalled: the input is not sound. */
    lemma CannotTell(slots: seq<Slot<Ownership.Output>>, pid: nat, w: View, p: Packet, h: PATResult,
                     patches: PG.Patches, n: nat)
      requires Recorded(slots) && Made() && kinds == KindsOf(views) && pid in views && Due(p, h, Stream(pid))
      requires w.source == views[pid].source + [p] && w.kind == views[pid].kind
      requires Announced(patches, views[pid := w], AwaitedBy(Now().arrived, params))
      requires PG.SomeMisfit(Now().arrived, n, patches) && (FirstHasEntries(Now().arrived) || n == |Now().arrived|)
      ensures !SoundSofar(inputs + [p], heard + [h], params)
    {
      hide PlanOf, Logged, Announced, PG.SomeMisfit, SoundSofar, KindsOf;
      LoggedSources(inputs, Now().route, views, slots);
      SourcesNext(views, inputs, Now().route, p, pid, w);
      ViewChanged(views, pid, w, []);
      TellSpoils(inputs + [p], heard + [h], params, patches, views[pid := w], n);
    }

    /** Both, after the stream has taken the packet. */
    method TellAndSettle(pid: nat, p: Packet, setup: Option<seq<byte>>, completed: seq<CompletedSlot>, ghost w: View,
                         ghost h: PATResult, ghost before: seq<Slot<Ownership.Output>>)
        returns (r: Outcome)
      requires pid in streams && pid in views && pid in kinds && setup == Told(views[pid])
      requires streams[pid].Setup() == Told(w)
      requires router.Valid() && LanesAre(streams, views[pid := w], objects) && Separate()
      requires Recorded(before) && Made() && Informed() && Due(p, h, Stream(pid))
      requires Advanced(views[pid], w, |before|, p, completed) && p.pid == pid
      requires kinds == KindsOf(views) && router.streams == OpenOf(views)[pid := views[pid].open + [|before|]]
      requires Kept(before, Slots()) && |Slots()| == |before| + 1
      modifies router.pmt, PG.Objects(router.pmt.pending), router.output.queue, router.output.writer, router`owner,
        router`streams, this`inputs, this`heard, this`views
      ensures r == Done || r == PMTError || (r == WriteFailed && router.output.Broken())
      ensures r == PMTError ==> !SoundSofar(old(inputs) + [p], old(heard) + [h], params)
      ensures r == Done ==> Valid() && inputs == old(inputs) + [p] && heard == old(heard) + [h]
      ensures r == Done ==> PG.Objects(router.pmt.pending) <= old(PG.Objects(router.pmt.pending))
    {
      hide LanesAre, LaneIs, SlotRouter.Working, SlotRouter.Valid, Logged, PlanOf, Announced, Kept, OpenOf, UsedWell,
        AwaitedBy, StepFine, SoundSofar, PG.SomeMisfit;
      ghost var middle, n := Slots(), |router.pmt.released|;
      ghost var patches;
      r, patches := Tell(pid, setup, views, w);
      if r == PMTError {
        CannotTell(before, pid, w, p, h, patches, n);
      }
      if r == Done {
        KeptTwice(before, middle, Slots());
        r := Settle(pid, p, completed, w, h, before);
      }
    }

    /** A packet for a media stream. */
    method ConsumeMedia(token: nat, p: Packet, ghost h: PATResult, ghost before: seq<Slot<Ownership.Output>>)
        returns (r: Outcome)
      requires Handling(token, before) && p.pid in streams
      requires (p.pusi || !p.hasPayload || streams[p.pid].collector.active)
      requires Due(p, h, Stream(p.pid))
      modifies router, router.pmt, PG.Objects(router.pmt.pending), router.output.queue, router.output.writer, objects,
        this`inputs, this`heard, this`views
      ensures r == Done || r == StreamError || r == PMTError || (r == WriteFailed && router.output.Broken())
      ensures r == StreamError || r == PMTError ==> !SoundSofar(old(inputs) + [p], old(heard) + [h], params)
      ensures r == Done ==> Valid() && inputs == old(inputs) + [p] && heard == old(heard) + [h]
      ensures r == Done ==> PG.Objects(router.pmt.pending) <= old(PG.Objects(router.pmt.pending))
    {
      hide LanesAre, LaneIs, SlotRouter.Working, SlotRouter.Valid, Logged, PlanOf, Announced, Kept, UsedWell, AwaitedBy,
        StepFine, SoundSofar, Welcome;
      OneOfThem(streams, views, objects, p.pid);
      LaneShows(streams[p.pid], p.pid, views[p.pid]);
      var setup := streams[p.pid].Setup();
      ghost var w;
      var ok, completed;
      ok, completed, w := FeedLane(token, p, before);
      if !ok {
        NotWelcome(p, h, before);
        return StreamError;
      }
      r := TellAndSettle(p.pid, p, setup, completed, w, h, before);
    }

    /** A packet that its stream refuses: the input is not sound. */
    lemma NotWelcome(p: Packet, h: PATResult, slots: seq<Slot<Ownership.Output>>)
      requires Recorded(slots) && Made() && kinds == KindsOf(views) && p.pid in views && Due(p, h, Stream(p.pid))
      requires !Welcome(p.pid, views[p.pid], p)
      ensures !SoundSofar(inputs + [p], heard + [h], params)
    {
      hide PlanOf, Logged, SoundSofar, Acceptable;
      LoggedSources(inputs, Now().route, views, slots);
      assert UnfoldSources(0);
      StreamSpoils(inputs, heard, params, p, h, views[p.pid].kind);
    }

    // ---- a packet of the PMT's PID ----

    /** The PMT transformer has taken the PMT that the packet brings. */
    ghost predicate HasTaken(p: Packet, h: PATResult, a: PG.Arrival)
      requires |inputs| == |heard|
      reads this, router.pmt
    {
      var next := PlanOf(inputs + [p], heard + [h], params);
      && router.pmt.arrived == next.arrived == Now().arrived + [a] && router.pmt.inputEncrypted == params.inputEncrypted
      && Announced(router.pmt.patches, views, AwaitedBy(next.arrived, params))
      && UsedWell(router.pmt.used, router.pmt.patches, inputs + [p], heard + [h], params)
    }

    /** What it held before and what it was given make up what it holds now. */
    lemma TakenIs(p: Packet, h: PATResult, a: PG.Arrival, patches: PG.Patches, used: seq<PG.Patches>,
                  arrived: seq<PG.Arrival>)
      requires |inputs| == |heard| && UsedWell(used, patches, inputs, heard, params) && arrived == Now().arrived
      requires p.pid == Now().pmtPID != PAT_PID && Took(a, |inputs|, p)
      requires Announced(patches, views, AwaitedBy(arrived, params)) && Sources(views, inputs, Now().route)
      requires KindsOf(views) == Kinds(Now()) && router.pmt.inputEncrypted == params.inputEncrypted
      requires router.pmt.arrived == arrived + [a] && used <= router.pmt.used && |router.pmt.used| <= |arrived| + 1
      requires if arrived == [] then PG.Awaiting(router.pmt.patches, a, params.inputEncrypted)
               else router.pmt.patches == patches
      requires PG.AllSignalled(patches) ==> |used| == |arrived|
      requires PG.UsedFrom(router.pmt.used, |used|, router.pmt.patches)
      ensures HasTaken(p, h, a)
    {
      hide PlanOf, Announced, UsedWell, PG.UsedFrom, Took, KindsOf, Sources, PG.Awaiting, PG.AllSignalled;
      GateTook(inputs, heard, params, p, h, a, views, patches, router.pmt.patches, used, router.pmt.used);
      PMTNext(inputs, heard, params, p, h, a);
    }

    /** What the transformer holds is what the input says. */
    lemma Prepared(slots: seq<Slot<Ownership.Output>>)
      requires Recorded(slots) && Made() && Informed() && kinds == KindsOf(views) && router.pmt.Valid()
      ensures Sources(views, inputs, Now().route) && router.pmt.patches == PatchesAt(inputs, heard, params)
      ensures !made || router.pmt.arrived == [] ==> router.pmt.patches == map[]
      ensures FirstHasEntries(Now().arrived) || |router.pmt.released| == |Now().arrived|
      ensures PG.AllSignalled(router.pmt.patches) ==> |router.pmt.used| == |Now().arrived|
    {
      hide PlanOf, Logged, Announced, KindsFrom, PatchesAt, UsedWell;
      LoggedSources(inputs, Now().route, views, slots);
      PatchesAre(router.pmt.patches, views, inputs, heard, params);
      AwaitedAreMade(inputs, heard, params);
      router.ReleasedSofar();
      if !FirstHasEntries(Now().arrived) {
        NobodyAwaited(router.pmt.patches, views);
      }
      if router.pmt.arrived == [] {
        NoPMTNoStreams(inputs, heard, params);
      }
      if Now().streams.None? {
        NothingMade(views);
        NoPatches(router.pmt.patches, inputs, heard, params);
      }
    }

    /** The gate passes the packet on or keeps it; nothing is recorded yet. */
    method AskGate(token: nat, p: Packet, ghost h: PATResult, ghost before: seq<Slot<Ownership.Output>>)
        returns (r: Outcome, section: PG.SectionObject?)
      requires Handling(token, before) && p.pid == pmtPID == Now().pmtPID && p.pid != PAT_PID
      modifies router.pmt, router.pmt.collector, PG.Objects(router.pmt.pending), router.output.queue,
        router.output.writer, router`owner
      ensures r == Done || r == PMTError || (r == WriteFailed && router.output.Broken())
      ensures r == PMTError ==> !SoundSofar(inputs + [p], heard + [h], params)
      ensures r == Done ==> router.Valid() && Steady() && Kept(before, Slots()) && |Slots()| == token + 1
      ensures r == Done ==> fresh(PG.Objects(router.pmt.pending) - old(PG.Objects(router.pmt.pending)))
      ensures r == Done && section == null ==> Informed()
      ensures r == Done && section == null ==> Placed(Slots(), [CompletedSlot(token, [p])])
      ensures r == Done && section == null ==> PG.CollectsAs(p, PG.NoPMT)
      ensures r == Done && section != null ==> exists a :: Took(a, |inputs|, p) && HasTaken(p, h, a)
      ensures r == Done && section != null && !made ==>
        router.pmt.arrived != [] && section.syntax == Newest(router.pmt.arrived)
    {
      hide LanesAre, LaneIs, Logged, PlanOf, Announced, Kept, UsedWell, AwaitedBy, StepFine, SoundSofar, PG.UsedFrom,
        Took, OpenOf, Refused, HasTaken, PG.Awaiting, PG.AllSignalled;
      ghost var middle, used, patches, arrived, n := Slots(), router.pmt.used, router.pmt.patches, router.pmt.arrived,
        |router.pmt.released|;
      Prepared(before);
      r, section := router.TakePMT(token, p);
      if r == PMTError {
        RefusedSpoils(inputs, heard, params, p, h, patches, n);
      }
      if r == Done {
        KeptTwice(before, middle, Slots());
        router.ReleasedSofar();
        if section == null {
          assert router.pmt.used == used && router.pmt.patches == patches && router.pmt.arrived == arrived;
        } else {
          ghost var a :| router.pmt.arrived == arrived + [a] && Took(a, token, p);
          TakenIs(p, h, a, patches, used, arrived);
        }
      }
    }

    /** The first PMT with entries has arrived: its streams are still to be made. */
    ghost predicate Expecting(entries: seq<ElementaryStream>)
      requires |inputs| == |heard|
      reads this
    {
      && !made && views == map[] && kinds == map[] && entries != []
      && Now().streams == Some(KindsFrom(entries, params))
    }

    /** What is to be recorded of a packet that the gate has kept. */
    ghost method RecordPMT(p: Packet, h: PATResult, a: PG.Arrival, before: seq<Slot<Ownership.Output>>)
      requires Recorded(before) && Made() && kinds == KindsOf(views) && StepFine(Now(), p, h)
      requires p.pid == Now().pmtPID != PAT_PID && Took(a, |inputs|, p) && HasTaken(p, h, a)
      requires Kept(before, Slots()) && |Slots()| == |before| + 1
      modifies this`inputs, this`heard
      ensures inputs == old(inputs) + [p] && heard == old(heard) + [h] && Recorded(Slots()) && Informed()
      ensures Now().pmtPID == old(Now().pmtPID)
      ensures if made || a.syntax.pmt.streams == [] then Made() else Expecting(a.syntax.pmt.streams)
      ensures router.pmt.arrived != [] && Newest(router.pmt.arrived) == a.syntax
    {
      hide LanesAre, LaneIs, PlanOf, Logged, Announced, UsedWell, AwaitedBy, StepFine, KindsFrom, Took;
      PMTNext(inputs, heard, params, p, h, a);
      LoggedElse(inputs, Now().route, views, before, Slots(), p, Gate);
      StepsNext(inputs, heard, params, p, h);
      if !made {
        NothingMade(views);
      }
      inputs, heard := inputs + [p], heard + [h];
    }

    /** The gate passes the packet on or keeps it. */
    method TakePMT(token: nat, p: Packet, ghost h: PATResult, ghost before: seq<Slot<Ownership.Output>>)
        returns (r: Outcome, section: PG.SectionObject?)
      requires Handling(token, before) && p.pid == pmtPID == Now().pmtPID && p.pid != PAT_PID
      modifies router.pmt, router.pmt.collector, PG.Objects(router.pmt.pending), router.output.queue,
        router.output.writer, router`owner, this`inputs, this`heard, this`views
      ensures r == Done || r == PMTError || (r == WriteFailed && router.output.Broken())
      ensures r == PMTError ==> !SoundSofar(old(inputs) + [p], old(heard) + [h], params)
      ensures r == Done ==> inputs == old(inputs) + [p] && heard == old(heard) + [h]
      ensures r == Done ==> router.Valid() && Steady() && Recorded(Slots()) && Informed() && pmtPID == Now().pmtPID
      ensures r == Done ==> fresh(PG.Objects(router.pmt.pending) - old(PG.Objects(router.pmt.pending)))
      ensures r == Done && (section == null || made || section.syntax.pmt.streams == []) ==> Made()
      ensures r == Done && section != null && !made && section.syntax.pmt.streams != [] ==>
        Expecting(section.syntax.pmt.streams)
    {
      hide LanesAre, LaneIs, PlanOf, Logged, Announced, UsedWell, AwaitedBy, KindsFrom, Kept, Took, SlotRouter.Working,
        SlotRouter.Valid, SoundSofar, OpenOf, KindsOf;
      r, section := AskGate(token, p, h, before);
      if r == Done {
        if section == null {
          ElseNext(inputs, heard, params, p, h);
          NotBad(p);
          LoggedElse(inputs, Now().route, views, before, Slots(), p, Current);
          Record(p, h, Current, views);
        } else {
          ghost var a :| Took(a, |inputs|, p) && HasTaken(p, h, a);
          TookIsFine(p, |inputs|, a);
          RecordPMT(p, h, a, before);
        }
      }
    }

    // ---- the streams are made ----

    /** While the streams are made. */
    ghost predicate Making(entries: seq<ElementaryStream>)
      reads this, objects, router, router.output, router.output.queue, router.output.writer, router.pmt,
        router.pmt.collector, PG.Objects(router.pmt.pending)
    {
      && router.Valid() && Steady() && Recorded(Slots()) && Informed()
      && !made && Now().streams == Some(KindsFrom(entries, params))
    }

    /** The new stream takes its place. */
    method Install(pid: nat, kind: Kind, s: MediaStream, ghost v: View)
      requires router.Valid() && LanesAre(streams[pid := s], views[pid := v], objects + Footprint(s))
      requires this !in router.Objects() && this !in objects + Footprint(s)
        && objects + Footprint(s) !! router.Objects()
      requires router.streams == OpenOf(views[pid := v]) && kinds[pid := kind] == KindsOf(views[pid := v])
      requires |inputs| == |heard| && Logged(inputs, Now().route, views[pid := v], Slots())
      requires StepsFine(inputs, heard, params)
      modifies this`streams, this`kinds, this`views, this`objects
      ensures router.Valid() && Steady() && Recorded(Slots()) && objects == old(objects) + Footprint(s)
      ensures streams == old(streams)[pid := s] && kinds == old(kinds)[pid := kind] && views == old(views)[pid := v]
      ensures s.Setup() == old(s.Setup())
    {
      hide LanesAre, LaneIs, Logged, PlanOf, OpenOf, KindsOf, SlotRouter.Working, SlotRouter.Valid;
      streams, kinds, views, objects := streams[pid := s], kinds[pid := kind], views[pid := v], objects + Footprint(s);
    }

    /** One stream more, which has not said anything yet. */
    method AddOne(pid: nat, kind: Kind) returns (s: MediaStream, ghost v: View)
      requires router.Valid() && Steady() && Recorded(Slots()) && pid !in kinds
      modifies this`streams, this`kinds, this`views, this`objects, router`streams
      ensures router.Valid() && Steady() && Recorded(Slots()) && fresh(objects - old(objects))
      ensures streams == old(streams)[pid := s] && kinds == old(kinds)[pid := kind] && views == old(views)[pid := v]
      ensures v.kind == kind && s.Setup() == Told(v) && pid !in old(views)
    {
      hide LanesAre, LaneIs, Logged, PlanOf, Told, Announced, UsedWell, SlotRouter.Working, SlotRouter.Valid;
      SamePids(streams, views, objects);
      assert views.Keys == KindsOf(views).Keys;
      router.AddStream(pid);
      s, v := NewLaneIn(streams, views, objects, pid, kind);
      LoggedNew(inputs, Now().route, views, Slots(), pid, v);
      ViewChanged(views, pid, v, []);
      Install(pid, kind, s, v);
    }

    /** A stream that signals when it is made, and some PMT does not fit. */
    lemma CannotMake(entries: seq<ElementaryStream>, slots: seq<Slot<Ownership.Output>>, patches: PG.Patches, n: nat)
      requires Recorded(slots) && Now().streams == Some(KindsFrom(entries, params)) && kinds == KindsOf(views)
      requires SomeOf(kinds, KindsFrom(entries, params))
      requires Announced(patches, views, AwaitedBy(Now().arrived, params))
      requires PG.SomeMisfit(Now().arrived, n, patches) && (FirstHasEntries(Now().arrived) || n == |Now().arrived|)
      ensures !SoundSofar(inputs, heard, params)
    {
      hide PlanOf, Logged, Announced, PG.SomeMisfit, SoundSofar, KindsFrom;
      LoggedSources(inputs, Now().route, views, slots);
      assert forall pid :: pid in views ==> pid in KindsOf(views) && KindsOf(views)[pid] == views[pid].kind;
      MakingSpoils(inputs, heard, params, patches, views, n);
    }

    /** One stream more; a stream that need not see any data for it signals at once. */
    method MakeOne(pid: nat, kind: Kind, ghost entries: seq<ElementaryStream>) returns (r: Outcome)
      requires Making(entries) && pid !in kinds
      requires SomeOf(kinds[pid := kind], KindsFrom(entries, params))
      modifies this`streams, this`kinds, this`views, this`objects, router`streams
      modifies router.pmt, PG.Objects(router.pmt.pending), router.output.queue, router.output.writer, router`owner
      ensures r == Done || r == PMTError || (r == WriteFailed && router.output.Broken())
      ensures r == PMTError ==> !SoundSofar(inputs, heard, params)
      ensures r == Done ==> Making(entries) && kinds == old(kinds)[pid := kind] && fresh(objects - old(objects))
      ensures r == Done ==> PG.Objects(router.pmt.pending) <= old(PG.Objects(router.pmt.pending))
    {
      hide LanesAre, LaneIs, Logged, PlanOf, Told, Announced, UsedWell, SlotRouter.Working, SlotRouter.Valid,
        KindsFrom, AwaitedBy, SoundSofar, PG.SomeMisfit, Kept, OpenOf;
      ghost var before, slots, n, patches := views, Slots(), |router.pmt.released|, map[];
      ghost var v := View(kind, [], [], [], []);
      assert views.Keys == KindsOf(views).Keys;
      var s;
      s, v := AddOne(pid, kind);
      assert pid in KindsFrom(entries, params);
      r, patches := Tell(pid, None, before, v);
      if r == PMTError {
        CannotMake(entries, slots, patches, n);
      }
      if r == Done {
        LoggedKept(inputs, Now().route, views, slots, Slots());
      }
    }

    /** One entry of the PMT: the first supported one of a PID brings a stream. */
    method Consider(entries: seq<ElementaryStream>, i: nat) returns (r: Outcome)
      requires i < |entries| && Making(entries) && kinds == KindsFrom(entries[..i], params)
      modifies this`streams, this`kinds, this`views, this`objects, router`streams
      modifies router.pmt, PG.Objects(router.pmt.pending), router.output.queue, router.output.writer, router`owner
      ensures r == Done || r == PMTError || (r == WriteFailed && router.output.Broken())
      ensures r == PMTError ==> !SoundSofar(inputs, heard, params)
      ensures r == Done ==> Making(entries) && kinds == KindsFrom(entries[..i + 1], params)
      ensures r == Done ==> fresh(objects - old(objects))
      ensures r == Done ==> PG.Objects(router.pmt.pending) <= old(PG.Objects(router.pmt.pending))
    {
      hide Making, KindsFrom, PlanOf, SoundSofar;
      var e := entries[i];
      ghost var sofar := kinds;
      KindsNext(entries, i, params);
      KindsGrow(entries, i + 1, params);
      if PG.Supported(e.streamType, params.inputEncrypted) && e.pid !in kinds {
        r := MakeOne(e.pid, KindFor(e.streamType, params.keys), entries);
      } else {
        r := Done;
      }
    }

    method MakeAll(entries: seq<ElementaryStream>) returns (r: Outcome)
      requires Making(entries) && kinds == map[]
      modifies this`streams, this`kinds, this`views, this`objects, router`streams
      modifies router.pmt, PG.Objects(router.pmt.pending), router.output.queue, router.output.writer, router`owner
      ensures r == Done || r == PMTError || (r == WriteFailed && router.output.Broken())
      ensures r == PMTError ==> !SoundSofar(inputs, heard, params)
      ensures r == Done ==> Making(entries) && kinds == KindsFrom(entries, params) && fresh(objects - old(objects))
      ensures r == Done ==> PG.Objects(router.pmt.pending) <= old(PG.Objects(router.pmt.pending))
    {
      hide Making, PlanOf, SoundSofar;
      r := Done;
      assert entries[..0] == [];
      for i := 0 to |entries|
        invariant r == Done && Making(entries) && kinds == KindsFrom(entries[..i], params)
        invariant fresh(objects - old(objects))
        invariant PG.Objects(router.pmt.pending) <= old(PG.Objects(router.pmt.pending))
      {
        r := Consider(entries, i);
        if r != Done {
          return;
        }
      }
      assert entries[..|entries|] == entries;
    }

    /** updateMediaStreams, for the first PMT with entries. */
    method MakeStreams(entries: seq<ElementaryStream>) returns (r: Outcome)
      requires router.Valid() && Steady() && Recorded(Slots()) && Informed() && Expecting(entries)
      modifies this`streams, this`kinds, this`views, this`objects, this`made, router`streams
      modifies router.pmt, PG.Objects(router.pmt.pending), router.output.queue, router.output.writer, router`owner
      ensures r == Done || r == PMTError || (r == WriteFailed && router.output.Broken())
      ensures r == PMTError ==> !SoundSofar(inputs, heard, params)
      ensures r == Done ==> router.Valid() && Steady() && Recorded(Slots()) && Informed() && Made()
      ensures r == Done ==> fresh(objects - old(objects))
      ensures r == Done ==> PG.Objects(router.pmt.pending) <= old(PG.Objects(router.pmt.pending))
    {
      hide LanesAre, LaneIs, Logged, Announced, PlanOf, UsedWell, SlotRouter.Working, SlotRouter.Valid, KindsFrom,
        AwaitedBy, SoundSofar, OpenOf, KindsOf;
      r := MakeAll(entries);
      if r == Done {
        made := true;
      }
    }

    /** A packet of the PMT's PID; the first PMT with entries brings the streams. */
    method ConsumePMT(token: nat, p: Packet, ghost h: PATResult, ghost before: seq<Slot<Ownership.Output>>)
        returns (r: Outcome)
      requires Handling(token, before) && p.pid == pmtPID == Now().pmtPID && p.pid != PAT_PID
      modifies this`streams, this`kinds, this`views, this`objects, this`made, this`inputs, this`heard, router
      modifies router.pmt, router.pmt.collector, PG.Objects(router.pmt.pending), router.output.queue,
        router.output.writer
      ensures r == Done || r == PMTError || (r == WriteFailed && router.output.Broken())
      ensures r == PMTError ==> !SoundSofar(old(inputs) + [p], old(heard) + [h], params)
      ensures r == Done ==> Valid() && inputs == old(inputs) + [p] && heard == old(heard) + [h]
      ensures r == Done ==> fresh(objects - old(objects))
      ensures r == Done ==> fresh(PG.Objects(router.pmt.pending) - old(PG.Objects(router.pmt.pending)))
    {
      hide LanesAre, LaneIs, Logged, Announced, PlanOf, UsedWell, SlotRouter.Working, SlotRouter.Valid, KindsFrom,
        AwaitedBy, SoundSofar, OpenOf, KindsOf, Kept;
      var section;
      r, section := TakePMT(token, p, h, before);
      if r == Done && section != null && section.syntax.pmt.streams != [] && !made {
        r := MakeStreams(section.syntax.pmt.streams);
      }
    }

    // ---- a packet ----

    /** The packet is for a stream that takes it. */
    predicate ForStream(p: Packet)
      reads this
      reads if p.pid in streams then {streams[p.pid].collector} else {}
    {
      p.pid in streams && (p.pusi || !p.hasPayload || streams[p.pid].collector.active)
    }

    /** Consume's choice is the way of the packet. */
    lemma ChoiceIsWay(p: Packet, slots: seq<Slot<Ownership.Output>>)
      requires Steady() && Recorded(slots) && Made()
      ensures ForStream(p) <==> TakesPacket(Now(), inputs, p)
    {
      hide LanesAre, LaneIs, PlanOf, Logged;
      SamePids(streams, views, objects);
      assert views.Keys == KindsOf(views).Keys;
      if p.pid in streams {
        LoggedSources(inputs, Now().route, views, slots);
        assert UnfoldSources(0);
        OneOfThem(streams, views, objects, p.pid);
        LaneShows(streams[p.pid], p.pid, views[p.pid]);
      }
    }

    /** A packet of the PAT goes straight on. */
    method ConsumePAT(token: nat, p: Packet, h: PATResult, ghost before: seq<Slot<Ownership.Output>>)
        returns (r: Outcome)
      requires Handling(token, before) && pmtPID == Now().pmtPID && p.pid == PAT_PID
      modifies router.output.queue, router.output.writer, router`owner, this`inputs, this`heard, this`views, this`pmtPID
      ensures r == PATError <==> h.PATFailed?
      ensures r == PATError ==> !SoundSofar(old(inputs) + [p], old(heard) + [h], params)
      ensures r == Done || r == PATError || (r == WriteFailed && router.output.Broken())
      ensures r == Done ==> Valid() && inputs == old(inputs) + [p] && heard == old(heard) + [h]
    {
      hide LanesAre, LaneIs, Logged, Announced, PlanOf, UsedWell, SlotRouter.Working, AwaitedBy, Kept;
      ElseNext(inputs, heard, params, p, h);
      StepsNext(inputs, heard, params, p, h);
      match h {
        case PATFailed =>
          return PATError;
        case NoProgram =>
        case Program(pid) =>
          pmtPID := pid;
      }
      r := PassOn(token, p, h, before);
    }

    /** A packet that has reserved its slot. */
    method Handle(token: nat, p: Packet, h: PATResult, ghost before: seq<Slot<Ownership.Output>>) returns (r: Outcome)
      requires Handling(token, before) && pmtPID == Now().pmtPID
      modifies this, router, router.pmt, router.pmt.collector, PG.Objects(router.pmt.pending), router.output.queue,
        router.output.writer, objects
      ensures r == PATError <==> p.pid == PAT_PID && h.PATFailed?
      ensures r == WriteFailed ==> router.output.Broken()
      ensures r != Done && r != WriteFailed ==> !SoundSofar(old(inputs) + [p], old(heard) + [h], params)
      ensures r != PMTUnresolved && r != SlotsUnresolved
      ensures r == Done ==> Valid() && inputs == old(inputs) + [p] && heard == old(heard) + [h]
      ensures r == Done ==> fresh(objects - old(objects))
      ensures r == Done ==> fresh(PG.Objects(router.pmt.pending) - old(PG.Objects(router.pmt.pending)))
    {
      hide LanesAre, LaneIs, Logged, Announced, PlanOf, UsedWell, SlotRouter.Working, SlotRouter.Valid, AwaitedBy, Kept,
        SoundSofar, OpenOf, KindsOf, TakesPacket;
      if p.pid == PAT_PID {
        r := ConsumePAT(token, p, h, before);
      } else if p.pid == pmtPID {
        r := ConsumePMT(token, p, h, before);
      } else {
        ElseNext(inputs, heard, params, p, h);
        ChoiceIsWay(p, before);
        if ForStream(p) {
          r := ConsumeMedia(token, p, h, before);
        } else {
          r := PassOn(token, p, h, before);
        }
      }
    }

    /** remuxer.Consume. It fails only if a write does or the input up to here is not sound. */
    method Consume(p: Packet, h: PATResult) returns (r: Outcome)
      requires Valid()
      modifies this, router, router.pmt, router.pmt.collector, PG.Objects(router.pmt.pending), router.output.queue,
        router.output.writer, objects
      ensures r == PATError <==> p.pid == PAT_PID && h.PATFailed?
      ensures r == WriteFailed ==> router.output.Broken()
      ensures r != Done && r != WriteFailed ==> !SoundSofar(old(inputs) + [p], old(heard) + [h], params)
      ensures r != PMTUnresolved && r != SlotsUnresolved
      ensures r == Done ==> Valid() && inputs == old(inputs) + [p] && heard == old(heard) + [h]
      ensures r == Done ==> fresh(objects - old(objects))
      ensures r == Done ==> fresh(PG.Objects(router.pmt.pending) - old(PG.Objects(router.pmt.pending)))
    {
      hide Valid, Handling, PlanOf, SoundSofar;
      ghost var before := Slots();
      var token := Reserve();
      r := Handle(token, p, h, before);
    }

    // ---- the end of the input ----

    /** Some streams have been flushed, the others are as recorded. */
    ghost predicate Flushing(lanes: map<nat, MediaStream>, rest: map<nat, View>, left: set<object>,
                             flushed: map<nat, seq<CompletedSlot>>, before: seq<Slot<Ownership.Output>>)
      reads this, left, router, router.output, router.output.queue, router.output.writer, router.pmt,
        router.pmt.collector,
        PG.Objects(router.pmt.pending)
    {
      && router.Valid() && LanesAre(lanes, rest, left) && left !! router.Objects()
      && Only(before, Slots(), flushed) && Kept(before, Slots()) && StillOpen(views, rest, flushed, router.streams)
    }

    /** One stream is flushed. It has nothing to signal. */
    method FlushOne(lanes: map<nat, MediaStream>, ghost rest: map<nat, View>, ghost left: set<object>,
                    ghost flushed: map<nat, seq<CompletedSlot>>, ghost before: seq<Slot<Ownership.Output>>, pid: nat)
        returns (r: Outcome, completed: seq<CompletedSlot>)
      requires Flushing(lanes, rest, left, flushed, before) && pid in lanes && this !in left
        && this !in router.Objects()
      modifies left, router.output.queue, router.output.writer, router`owner, router`streams
      ensures pid in rest && (r == Done || (r == WriteFailed && router.output.Broken()) || r == StreamError)
      ensures r == StreamError ==> !StreamFine(rest[pid].kind, rest[pid].source)
      ensures r == Done ==> Footprint(lanes[pid]) <= left && pid !in flushed
      ensures r == Done ==> Flushing(lanes - {pid}, rest - {pid}, left - Footprint(lanes[pid]),
        flushed[pid := completed], before)
    {
      hide LanesAre, LaneIs, Only, Kept, SlotRouter.Working, SlotRouter.Valid, StillOpen, Delivered, Fine, Footprint;
      OneOfThem(lanes, rest, left, pid);
      var setup := lanes[pid].Setup();
      var ok;
      ok, completed := LanesFlush(lanes, rest, left, pid);
      if !ok {
        return StreamError, [];
      }
      assert lanes[pid].Setup() == setup;
      ghost var middle := Slots();
      ghost var open := router.streams;
      OneIsOpen(views, rest, flushed, open, pid);
      assert SlotTokens(completed) + [] == SlotTokens(completed);
      r := router.CommitStream(pid, completed, []);
      if r == Done {
        OneMoreFlushed(before, middle, Slots(), flushed, pid, completed);
        KeptTwice(before, middle, Slots());
        OneLessOpen(views, rest, flushed, open, pid, completed);
      }
    }

    /** The streams are flushed one after the other, in any order. */
    method FlushStreams(lanes: map<nat, MediaStream>, ghost rest: map<nat, View>, ghost left: set<object>,
                        ghost flushed: map<nat, seq<CompletedSlot>>, ghost before: seq<Slot<Ownership.Output>>)
        returns (r: Outcome, ghost all: map<nat, seq<CompletedSlot>>)
      requires Flushing(lanes, rest, left, flushed, before) && this !in left && this !in router.Objects()
      modifies left, router.output.queue, router.output.writer, router`owner, router`streams
      ensures r == Done || (r == WriteFailed && router.output.Broken()) || r == StreamError
      ensures r == StreamError ==>
        exists pid :: pid in rest && !StreamFine(rest[pid].kind, rest[pid].source)
      ensures r == Done ==> Flushing(map[], map[], {}, all, before)
      decreases |lanes|
    {
      hide LanesAre, LaneIs, Only, Kept, SlotRouter.Working, StillOpen, Fine, SlotRouter.Valid;
      SamePids(lanes, rest, left);
      if lanes == map[] {
        assert rest.Keys == {};
        NoLanes();
        return Done, flushed;
      }
      var pid :| pid in lanes;
      var completed;
      r, completed := FlushOne(lanes, rest, left, flushed, before, pid);
      all := flushed;
      if r == Done {
        Smaller(lanes, pid);
        r, all := FlushStreams(lanes - {pid}, rest - {pid}, left - Footprint(lanes[pid]),
          flushed[pid := completed], before);
      }
    }

    /** The streams of the run have all been flushed, and nothing is open any more. */
    lemma Finished(before: seq<Slot<Ownership.Output>>, flushed: map<nat, seq<CompletedSlot>>)
      requires Recorded(before) && Kept(before, Slots()) && |Slots()| == |before|
      requires Made() && Informed() && kinds == KindsOf(views)
      requires flushed.Keys == views.Keys && forall pid :: pid in views ==> Delivered(pid, views[pid], flushed[pid])
      requires forall pid :: pid in flushed ==> Placed(Slots(), flushed[pid])
      requires router.pmt.Valid() && |router.pmt.released| == |router.pmt.arrived|
      requires Placed(Slots(), router.pmt.released)
      ensures Remuxed(inputs, heard, params, Values(Slots())) && Sound(inputs, heard, params)
    {
      hide Delivered, StreamDone, Logged, Announced, Remuxed, Sound, PlanOf, PatchesAt, PatchesFor, UsedWell, KindsOf;
      LoggedSources(inputs, Now().route, views, before);
      PatchesAre(router.pmt.patches, views, inputs, heard, params);
      LoggedKept(inputs, Now().route, views, before, Slots());
      StreamsAreDone(inputs, Now().route, views, Slots(), flushed);
      GateIsDone(router.pmt.released, router.pmt.used, router.pmt.patches, Slots(), inputs, heard, params);
      AllDone(inputs, heard, params, views, Slots());
    }

    /** remuxer.Flush, as far as the streams go. */
    method FlushAll() returns (r: Outcome, ghost flushed: map<nat, seq<CompletedSlot>>)
      requires Valid()
      modifies objects, router.output.queue, router.output.writer, router`owner, router`streams
      ensures r == Done || (r == WriteFailed && router.output.Broken()) || r == StreamError
      ensures r == StreamError ==> exists pid :: pid in views && !StreamFine(views[pid].kind, views[pid].source)
      ensures r == Done ==> router.Valid() && flushed.Keys == views.Keys && Only(old(Slots()), Slots(), flushed)
      ensures r == Done ==> forall pid :: pid in views ==> Delivered(pid, views[pid], flushed[pid])
      ensures r == Done ==> Kept(old(Slots()), Slots())
      ensures r == Done ==> forall pid :: pid in router.streams ==> router.streams[pid] == []
    {
      hide LanesAre, LaneIs, Only, Kept, StillOpen, Delivered, Fine, SlotRouter.Working, PlanOf, Logged, Announced,
        UsedWell;
      NothingFlushed(Slots());
      KeptItself(Slots());
      NoneFlushed(views);
      r, flushed := FlushStreams(streams, views, objects, map[], Slots());
      if r == Done {
        AllFlushed(views, flushed, router.streams);
      }
    }

    /** At the end of the input a stream or the PMT transformer has failed. */
    lemma NotFinished(slots: seq<Slot<Ownership.Output>>)
      requires Recorded(slots) && Made() && Informed() && kinds == KindsOf(views) && router.pmt.Valid()
      requires router.pmt.pending != [] || exists pid :: pid in views && !StreamFine(views[pid].kind, views[pid].source)
      ensures !Sound(inputs, heard, params)
    {
      hide PlanOf, Logged, Announced, UsedWell, StreamFine, Sound, PatchesAt, KindsOf;
      Prepared(slots);
      if pid :| pid in views && !StreamFine(views[pid].kind, views[pid].source) {
        EndSpoils(inputs, heard, params, views, pid);
      } else {
        HeldSpoils(inputs, heard, params, router.pmt.patches);
      }
    }

    /** remuxer.Flush. It succeeds exactly if the whole input is sound, unless a write fails. No
      * stream has anything to signal, so a PMT that was held before is held at the end. */
    method Flush() returns (r: Outcome, ghost flushed: map<nat, seq<CompletedSlot>>)
      requires Valid()
      modifies objects, router.output.queue, router.output.writer, router`owner, router`streams
      ensures r == Done || (r == WriteFailed && router.output.Broken()) || r == StreamError || r == PMTUnresolved
      ensures r == StreamError || r == PMTUnresolved ==> !Sound(inputs, heard, params)
      ensures r == PMTUnresolved ==> router.pmt.pending != []
      ensures r == Done ==> router.pmt.pending == []
      ensures r == Done ==> flushed.Keys == views.Keys && Only(old(Slots()), Slots(), flushed)
      ensures r == Done ==> forall pid :: pid in views ==> Delivered(pid, views[pid], flushed[pid])
      ensures r == Done ==> router.output.writer.out == Values(Slots())
      ensures r == Done ==> Remuxed(inputs, heard, params, router.output.writer.out) && Sound(inputs, heard, params)
    {
      hide LanesAre, LaneIs, Only, Kept, Delivered, Fine, Remuxed, Sound, PlanOf, Announced, Logged, UsedWell,
        AwaitedBy, OpenOf, KindsOf;
      ghost var before := Slots();
      r, flushed := FlushAll();
      if r == StreamError {
        NotFinished(before);
      }
      if r == Done {
        OnlyPlaced(before, Slots(), flushed);
        r := router.FlushOutput();
        if r == PMTUnresolved {
          NotFinished(before);
        }
        if r == Done {
          Finished(before, flushed);
        }
      }
    }
  }
}
