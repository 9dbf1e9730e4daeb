/** Which slot went to whom, and what the slots of each owner hold: the record of a run of the
  * remuxer, as values.
  */
module RemuxLog {
  import opened Bytes
  import opened Packets
  import opened AlignerModel
  import opened Aligner
  import opened CommitQueues
  import opened Ownership
  import opened MediaStreams
  import opened PesShapes
  import opened StreamFactory
  import opened Lanes

  // ---- the route of each packet: its stream, the PMT gate, or straight on (Current) ----

  /** The slots of one owner. */
  function TokensOf(route: seq<Owner>, who: Owner): seq<nat>
    decreases |route|
  {
    if route == [] then []
    else
      var n := |route| - 1;
      TokensOf(route[..n], who) + if route[n] == who then [n] else []
  }

  /** The packets of one owner. */
  function PacketsOf(inputs: seq<Packet>, route: seq<Owner>, who: Owner): seq<Packet>
    requires |inputs| == |route|
    decreases |route|
  {
    if route == [] then []
    else
      var n := |route| - 1;
      PacketsOf(inputs[..n], route[..n], who) + if route[n] == who then [inputs[n]] else []
  }

  lemma RouteSnoc(inputs: seq<Packet>, route: seq<Owner>, p: Packet, w: Owner, who: Owner)
    requires |inputs| == |route|
    ensures TokensOf(route + [w], who) == TokensOf(route, who) + if w == who then [|route|] else []
    ensures PacketsOf(inputs + [p], route + [w], who) == PacketsOf(inputs, route, who) + if w == who then [p] else []
  {
    assert (route + [w])[..|route|] == route && (inputs + [p])[..|inputs|] == inputs;
  }

  lemma {:induction false} NoTokens(inputs: seq<Packet>, route: seq<Owner>, who: Owner)
    requires |inputs| == |route| && who !in route
    ensures TokensOf(route, who) == [] && PacketsOf(inputs, route, who) == []
    decreases |route|
  {
    if route != [] {
      NoTokens(inputs[..|route| - 1], route[..|route| - 1], who);
    }
  }

  /** A slot is among those of an owner exactly if that is its route. */
  lemma {:induction false} TokensExact(route: seq<Owner>, who: Owner, t: nat)
    ensures t in TokensOf(route, who) <==> t < |route| && route[t] == who
    decreases |route|
  {
    if route != [] {
      var n := |route| - 1;
      TokensExact(route[..n], who, t);
    }
  }

  // ---- the record ----

  function OpenOf(views: map<nat, View>): map<nat, seq<nat>> {
    map pid | pid in views :: views[pid].open
  }

  ghost predicate StreamLogged(pid: nat, v: View, inputs: seq<Packet>, route: seq<Owner>, slots: seq<Slot<Output>>)
    requires |inputs| == |route|
  {
    && v.registered == TokensOf(route, Stream(pid)) && v.source == PacketsOf(inputs, route, Stream(pid))
    && Placed(slots, v.finished)
  }

  ghost predicate UnfoldPassed(k: int) { true }

  /** The packets that went straight on are complete in their own slots. Sealed. */
  ghost predicate PassedOn(inputs: seq<Packet>, route: seq<Owner>, slots: seq<Slot<Output>>) {
    |inputs| == |route| == |slots| && forall k {:trigger UnfoldPassed(k)} :: UnfoldPassed(k) ==>
      forall t :: 0 <= t < |route| && route[t] == Current ==> slots[t] == Slot([inputs[t]], true)
  }

  ghost predicate UnfoldLogged(k: int) { true }

  /** Every slot is accounted for: its packet is with the owner that its route says. Sealed. */
  ghost predicate Logged(inputs: seq<Packet>, route: seq<Owner>, views: map<nat, View>,
                         slots: seq<Slot<Output>>) {
    && |inputs| == |route| == |slots|
    && forall k {:trigger UnfoldLogged(k)} :: UnfoldLogged(k) ==>
      && (forall pid :: pid in views ==> StreamLogged(pid, views[pid], inputs, route, slots))
      && (forall t :: 0 <= t < |route| && route[t].Stream? ==> route[t].pid in views && inputs[t].pid == route[t].pid)
      && PassedOn(inputs, route, slots)
  }

  ghost predicate UnfoldSources(k: int) { true }

  /** The streams have been given the packets that were routed to them. Sealed. */
  ghost predicate Sources(views: map<nat, View>, inputs: seq<Packet>, route: seq<Owner>) {
    |inputs| == |route| && forall k {:trigger UnfoldSources(k)} :: UnfoldSources(k) ==>
      forall pid :: pid in views ==> views[pid].source == PacketsOf(inputs, route, Stream(pid))
  }

  lemma LoggedSources(inputs: seq<Packet>, route: seq<Owner>, views: map<nat, View>, slots: seq<Slot<Output>>)
    requires Logged(inputs, route, views, slots)
    ensures Sources(views, inputs, route)
  {
    assert UnfoldLogged(0);
  }

  /** A packet that a stream gets. */
  lemma SourcesNext(views: map<nat, View>, inputs: seq<Packet>, route: seq<Owner>, p: Packet, pid: nat, w: View)
    requires Sources(views, inputs, route) && pid in views && w.source == views[pid].source + [p]
    ensures Sources(views[pid := w], inputs + [p], route + [Stream(pid)])
  {
    assert UnfoldSources(0);
    forall q | q in views ensures
      views[pid := w][q].source == PacketsOf(inputs + [p], route + [Stream(pid)], Stream(q))
    {
      RouteSnoc(inputs, route, p, Stream(pid), Stream(q));
    }
  }

  lemma LoggedLength(inputs: seq<Packet>, route: seq<Owner>, views: map<nat, View>, slots: seq<Slot<Output>>)
    requires Logged(inputs, route, views, slots)
    ensures |slots| == |inputs|
  {
  }

  lemma NothingLogged()
    ensures Logged([], [], map[], [])
  {
  }

  lemma PassedKept(inputs: seq<Packet>, route: seq<Owner>, before: seq<Slot<Output>>, after: seq<Slot<Output>>)
    requires PassedOn(inputs, route, before) && Kept(before, after) && |after| == |before|
    ensures PassedOn(inputs, route, after)
  {
    assert UnfoldPassed(0) && UnfoldSame(0);
  }

  /** Slots that are complete stay as they are. */
  lemma LoggedKept(inputs: seq<Packet>, route: seq<Owner>, views: map<nat, View>,
                   before: seq<Slot<Output>>, after: seq<Slot<Output>>)
    requires Logged(inputs, route, views, before) && Kept(before, after) && |after| == |before|
    ensures Logged(inputs, route, views, after)
  {
    assert UnfoldLogged(0);
    PassedKept(inputs, route, before, after);
    forall pid | pid in views ensures StreamLogged(pid, views[pid], inputs, route, after) {
      PlacedKept(before, after, views[pid].finished);
    }
  }

  lemma PassedMore(inputs: seq<Packet>, route: seq<Owner>, before: seq<Slot<Output>>, after: seq<Slot<Output>>,
    p: Packet, w: Owner)
    requires PassedOn(inputs, route, before) && Kept(before, after) && |after| == |before| + 1
    requires w == Current ==> Placed(after, [CompletedSlot(|before|, [p])])
    ensures PassedOn(inputs + [p], route + [w], after)
  {
    assert UnfoldPassed(0) && UnfoldSame(0) && UnfoldPlaced(0);
    var slot := CompletedSlot(|before|, [p]);
    assert [slot][0] == slot;
    forall t | 0 <= t < |route| + 1 && (route + [w])[t] == Current ensures after[t] == Slot([(inputs + [p])[t]], true) {
      if t < |route| {
        assert before[t] == Slot([inputs[t]], true);
      }
    }
  }

  /** A stream that does not get the packet. */
  lemma NotMine(pid: nat, v: View, inputs: seq<Packet>, route: seq<Owner>, before: seq<Slot<Output>>,
    after: seq<Slot<Output>>,
                p: Packet, w: Owner)
    requires |inputs| == |route| && StreamLogged(pid, v, inputs, route, before) && Kept(before, after)
      && w != Stream(pid)
    ensures StreamLogged(pid, v, inputs + [p], route + [w], after)
  {
    RouteSnoc(inputs, route, p, w, Stream(pid));
    PlacedKept(before, after, v.finished);
    assert v.registered + [] == v.registered && v.source + [] == v.source;
  }

  lemma StreamsStay(views: map<nat, View>, inputs: seq<Packet>, route: seq<Owner>, p: Packet, w: Owner)
    requires |inputs| == |route| && (w.Stream? ==> w.pid in views && p.pid == w.pid)
    requires forall t :: 0 <= t < |route| && route[t].Stream? ==> route[t].pid in views && inputs[t].pid == route[t].pid
    ensures forall t :: 0 <= t <= |route| && (route + [w])[t].Stream? ==>
      (route + [w])[t].pid in views && (inputs + [p])[t].pid == (route + [w])[t].pid
  {
  }

  /** The packet went straight on, or the gate has taken it. */
  lemma LoggedElse(inputs: seq<Packet>, route: seq<Owner>, views: map<nat, View>, before: seq<Slot<Output>>,
                   after: seq<Slot<Output>>, p: Packet, w: Owner)
    requires Logged(inputs, route, views, before) && Kept(before, after) && |after| == |before| + 1 && !w.Stream?
    requires w == Current ==> Placed(after, [CompletedSlot(|before|, [p])])
    ensures Logged(inputs + [p], route + [w], views, after)
  {
    hide StreamLogged, PassedOn;
    assert UnfoldLogged(0);
    PassedMore(inputs, route, before, after, p, w);
    StreamsStay(views, inputs, route, p, w);
    forall pid | pid in views ensures StreamLogged(pid, views[pid], inputs + [p], route + [w], after) {
      NotMine(pid, views[pid], inputs, route, before, after, p, w);
    }
  }

  /** A stream has taken the packet. */
  lemma LoggedStream(inputs: seq<Packet>, route: seq<Owner>, views: map<nat, View>,
                     before: seq<Slot<Output>>, after: seq<Slot<Output>>, p: Packet, pid: nat, w: View,
                     completed: seq<CompletedSlot>)
    requires Logged(inputs, route, views, before) && Kept(before, after) && |after| == |before| + 1
    requires pid in views && p.pid == pid && Advanced(views[pid], w, |before|, p, completed) && Placed(after, completed)
    ensures Logged(inputs + [p], route + [Stream(pid)], views[pid := w], after)
  {
    assert UnfoldLogged(0);
    PassedMore(inputs, route, before, after, p, Stream(pid));
    StreamsStay(views[pid := w], inputs, route, p, Stream(pid));
    Mine(pid, views[pid], w, inputs, route, before, after, p, completed);
    forall q | q in views && q != pid ensures StreamLogged(q, views[q], inputs + [p], route + [Stream(pid)], after) {
      NotMine(q, views[q], inputs, route, before, after, p, Stream(pid));
    }
  }

  lemma Mine(pid: nat, v: View, w: View, inputs: seq<Packet>, route: seq<Owner>, before: seq<Slot<Output>>,
             after: seq<Slot<Output>>, p: Packet, completed: seq<CompletedSlot>)
    requires |inputs| == |route| == |before| && StreamLogged(pid, v, inputs, route, before) && Kept(before, after)
    requires Advanced(v, w, |before|, p, completed) && Placed(after, completed)
    ensures StreamLogged(pid, w, inputs + [p], route + [Stream(pid)], after)
  {
    RouteSnoc(inputs, route, p, Stream(pid), Stream(pid));
    PlacedKept(before, after, v.finished);
    PlacedBoth(after, v.finished, completed);
  }

  /** A new stream. */
  lemma LoggedNew(inputs: seq<Packet>, route: seq<Owner>, views: map<nat, View>,
                  slots: seq<Slot<Output>>, pid: nat, v: View)
    requires Logged(inputs, route, views, slots) && pid !in views
    requires v.registered == [] && v.source == [] && v.finished == []
    ensures Logged(inputs, route, views[pid := v], slots)
  {
    assert UnfoldLogged(0);
    PlacedNothing(slots);
    NoTokens(inputs, route, Stream(pid));
  }

  // ---- the output ----

  /** The packets in some of the slots, one slot after the other. */
  function Gather(out: seq<Output>, tokens: seq<nat>): seq<Packet>
    requires forall i :: 0 <= i < |tokens| ==> tokens[i] < |out|
    decreases |tokens|
  {
    if tokens == [] then [] else Gather(out, tokens[..|tokens| - 1]) + out[tokens[|tokens| - 1]]
  }

  lemma {:induction false} PlacedGather(slots: seq<Slot<Output>>, done: seq<CompletedSlot>)
    requires Placed(slots, done)
    ensures forall i :: 0 <= i < |SlotTokens(done)| ==> SlotTokens(done)[i] < |Values(slots)|
    ensures SlotPackets(done) == Gather(Values(slots), SlotTokens(done))
    decreases |done|
  {
    assert UnfoldPlaced(0);
    if done != [] {
      var n := |done| - 1;
      assert SlotTokens(done)[..n] == SlotTokens(done[..n]);
      PlacedGather(slots, done[..n]);
    }
  }

  /** What a stream owes for the packets that were routed to it. */
  ghost predicate StreamDone(pid: nat, k: Kind, inputs: seq<Packet>, route: seq<Owner>, out: seq<Output>)
    requires |inputs| == |route| == |out|
  {
    var source, tokens := PacketsOf(inputs, route, Stream(pid)), TokensOf(route, Stream(pid));
    && Fine(CodecFor(k), source) && AllPusi(source)
    && (forall i :: 0 <= i < |tokens| ==> tokens[i] < |out|)
    && MediaStreams.Output(pid, source, Transformed(CodecFor(k), Received(source).state.out), Gather(out, tokens))
  }

  lemma StreamIsDone(pid: nat, v: View, completed: seq<CompletedSlot>, inputs: seq<Packet>, route: seq<Owner>,
                     slots: seq<Slot<Output>>)
    requires |inputs| == |route| == |slots| && StreamLogged(pid, v, inputs, route, slots)
    requires Lanes.Delivered(pid, v, completed) && Placed(slots, completed)
    ensures StreamDone(pid, v.kind, inputs, route, Values(slots))
  {
    PlacedBoth(slots, v.finished, completed);
    PlacedGather(slots, v.finished + completed);
  }
}
