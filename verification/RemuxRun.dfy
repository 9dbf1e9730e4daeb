/** A whole run of the remuxer, and how far its output depends on the order in which it does
  * things.
  */
module RemuxRun {
  import opened Bytes
  import opened Cipher
  import opened Packets
  import opened Carriage
  import opened Packetizer
  import opened Aligner
  import opened AlignerModel
  import opened CommitQueues
  import PG = PmtGate
  import opened Ownership
  import opened StreamFactory
  import opened SlotRouters
  import opened RemuxLog
  import opened Routing
  import opened RemuxResult
  import R = Remuxer

  // ---- the run ----

  method Feed(m: R.Remuxer, packets: seq<Packet>, heard: seq<PATResult>) returns (r: Outcome)
    requires |packets| == |heard| && m.Valid() && m.inputs == [] && m.heard == []
    modifies m, m.router, m.router.pmt, m.router.pmt.collector, PG.Objects(m.router.pmt.pending), m.router.output.queue,
      m.router.output.writer, m.objects
    ensures r == Done ==> m.Valid() && m.inputs == packets && m.heard == heard
    ensures r == WriteFailed ==> m.router.output.Broken()
    ensures r != Done && r != WriteFailed ==> !Sound(packets, heard, m.params)
    ensures r != PMTUnresolved && r != SlotsUnresolved
    ensures fresh(m.objects - old(m.objects)) || r != Done
  {
    hide R.Remuxer.Valid, R.Remuxer.Steady, Sound, SoundSofar;
    r := Done;
    for i := 0 to |packets|
      invariant r == Done && m.Valid() && m.inputs == packets[..i] && m.heard == heard[..i]
      invariant fresh(m.objects - old(m.objects))
      invariant fresh(PG.Objects(m.router.pmt.pending) - old(PG.Objects(m.router.pmt.pending)))
    {
      r := m.Consume(packets[i], heard[i]);
      assert packets[..i + 1] == packets[..i] + [packets[i]] && heard[..i + 1] == heard[..i] + [heard[i]];
      if r != Done {
        if Sound(packets, heard, m.params) {
          SoundBefore(packets, heard, m.params, i + 1);
        }
        return;
      }
    }
    assert packets[..|packets|] == packets && heard[..|heard|] == heard;
  }

  /** Any list of packets on any PIDs, then the end of the input; each PAT packet is given with
    * what was found in it. Unless a write fails the run succeeds exactly if the input is sound,
    * and then every input packet's slot has been written once, in input order, with what the
    * input says. */
  method Run(packets: seq<Packet>, heard: seq<PATResult>, params: Params, fails: nat -> bool)
      returns (r: Outcome, out: seq<Output>)
    requires |packets| == |heard|
    ensures r == Done ==> Sound(packets, heard, params) && Remuxed(packets, heard, params, out)
    ensures r != Done && r != WriteFailed ==> !Sound(packets, heard, params)
    ensures (forall n :: !fails(n)) ==> (r == Done <==> Sound(packets, heard, params))
    ensures r != SlotsUnresolved
  {
    hide R.Remuxer.Valid, R.Remuxer.Steady, Remuxed, Sound;
    out := [];
    var m := new R.Remuxer(params, fails);
    r := Feed(m, packets, heard);
    if r == Done {
      ghost var flushed;
      r, flushed := m.Flush();
      if r == Done {
        out := m.router.output.writer.out;
      }
    }
  }

  // ---- what does not depend on any order ----

  /** What a receiver gets of a stream is the same in both: the same bytes in the same PES
    * packets, the same fields with each of them, and packets whose counters begin with the
    * same number. */
  ghost predicate SameStream(pid: nat, inputs: seq<Packet>, route: seq<Owner>, out: seq<Output>, out': seq<Output>)
    requires |inputs| == |route| == |out| == |out'|
  {
    var source, tokens := PacketsOf(inputs, route, Stream(pid)), TokensOf(route, Stream(pid));
    && (forall i :: 0 <= i < |tokens| ==> tokens[i] < |out|)
    && var a, b := Gather(out, tokens), Gather(out', tokens);
    && Units(a) == Units(b) && Fields(a) == Fields(b) && AllMade(pid, a) && AllMade(pid, b)
    && (source != [] ==> Counted(FirstCounter(source[0]), a) && Counted(FirstCounter(source[0]), b))
  }

  lemma StreamsAgree(pid: nat, k: Kind, inputs: seq<Packet>, route: seq<Owner>, out: seq<Output>, out': seq<Output>)
    requires |inputs| == |route| == |out| == |out'|
    requires StreamDone(pid, k, inputs, route, out) && StreamDone(pid, k, inputs, route, out')
    ensures SameStream(pid, inputs, route, out, out')
  {
  }

  /** Two runs over the same input write the same into every slot that is not a stream's, and a
    * receiver gets the same of every stream. */
  lemma RunsAgree(inputs: seq<Packet>, heard: seq<PATResult>, q: Params, out: seq<Output>, out': seq<Output>)
    requires Remuxed(inputs, heard, q, out) && Remuxed(inputs, heard, q, out')
    ensures |out| == |out'|
    ensures forall t :: 0 <= t < |out| && !PlanOf(inputs, heard, q).route[t].Stream? ==> out[t] == out'[t]
    ensures forall pid :: pid in Kinds(PlanOf(inputs, heard, q)) ==>
      SameStream(pid, inputs, PlanOf(inputs, heard, q).route, out, out')
  {
    hide StreamDone, PlanOf, PatchesFor, SameStream;
    GateHasArrived(inputs, heard, q);
    var plan := PlanOf(inputs, heard, q);
    forall t | 0 <= t < |out| && plan.route[t] == Gate ensures out[t] == out'[t] {
      TokensExact(plan.route, Gate, t);
      var k :| 0 <= k < |plan.arrived| && PG.ArrivedTokens(plan.arrived)[k] == t;
      assert PMTDone(plan.arrived[k], PatchesFor(inputs, heard, q, k), out);
      assert PMTDone(plan.arrived[k], PatchesFor(inputs, heard, q, k), out');
    }
    forall pid | pid in Kinds(plan) ensures SameStream(pid, inputs, plan.route, out, out') {
      StreamsAgree(pid, Kinds(plan)[pid], inputs, plan.route, out, out');
    }
  }

  /** The order of the streams in Flush does not matter: two flushes of the same slots in which
    * each stream hands back the same write the same. Nothing is asked of the PMT gate, because
    * no stream signals while it is flushed. */
  lemma FlushOrder(before: seq<Slot<Output>>, a: seq<Slot<Output>>, b: seq<Slot<Output>>,
                   flushed: map<nat, seq<CompletedSlot>>)
    requires Only(before, a, flushed) && Only(before, b, flushed)
    ensures Values(a) == Values(b)
  {
    FlushIsDetermined(before, a, b, flushed);
  }
}
