/** The queue of PES packets that a codec transformer keeps while it holds bytes
  * back (the `pes` slice with `write` and `finishPES` in ts/codecs/avc, aac, ac3
  * and eac3). Every delayed byte stays charged to the PES it arrived in.
  *
  * The downstream packets.PESHandler is the trace of the calls made to it.
  */
module PesQueues {
  import opened Bytes
  import opened Wrappers

  // ---- the downstream handler ----

  datatype Event = Header(header: seq<byte>) | Payload(data: seq<byte>) | End

  /** One PES as the downstream handler sees it, however its payload was cut. */
  datatype PES = PES(header: seq<byte>, payload: seq<byte>, ended: bool)

  function Handle(sofar: seq<PES>, e: Event): Option<seq<PES>> {
    var n := |sofar|;
    match e
    case Header(h) =>
      if n > 0 && !sofar[n - 1].ended then None else Some(sofar + [PES(h, [], false)])
    case Payload(d) =>
      if n == 0 || sofar[n - 1].ended then None
      else Some(sofar[n - 1 := sofar[n - 1].(payload := sofar[n - 1].payload + d)])
    case End =>
      if n == 0 || sofar[n - 1].ended then None
      else Some(sofar[n - 1 := sofar[n - 1].(ended := true)])
  }

  /** The PES packets of a trace of the form (Header Payload* End)*; None for any other trace. */
  function Group(events: seq<Event>): Option<seq<PES>> {
    if events == [] then Some([])
    else match Group(events[..|events| - 1])
      case None => None
      case Some(sofar) => Handle(sofar, events[|events| - 1])
  }

  lemma GroupAppend(events: seq<Event>, e: Event)
    requires Group(events).Some?
    ensures Group(events + [e]) == Handle(Group(events).value, e)
  {
    assert (events + [e])[..|events|] == events;
  }

  // ---- the queue ----

  /** `bytes` counts source bytes received for this PES and not yet passed on. */
  datatype PendingPES = PendingPES(header: seq<byte>, bytes: nat, ended: bool, started: bool)

  /** One input PES: the header to send, the source bytes received, whether it was closed. */
  datatype Input = Input(header: seq<byte>, size: nat, ended: bool)

  /** An input PES and the images of its source bytes that were sent so far. */
  datatype Source = Source(input: Input, images: Images)

  function Inputs(sources: seq<Source>): (r: seq<Input>)
    ensures |r| == |sources|
  {
    seq(|sources|, i requires 0 <= i < |sources| => sources[i].input)
  }

  /** All images sent for `sources`, in order. */
  function Join(sources: seq<Source>): Images {
    if sources == [] then [] else Join(sources[..|sources| - 1]) + sources[|sources| - 1].images
  }

  lemma JoinAppend(sources: seq<Source>, s: Source)
    ensures Join(sources + [s]) == Join(sources) + s.images
  {
    assert (sources + [s])[..|sources|] == sources;
  }

  function Finished(s: Source): PES {
    PES(s.input.header, Flatten(s.images), true)
  }

  function AllFinished(sources: seq<Source>): (r: seq<PES>)
    ensures |r| == |sources|
  {
    seq(|sources|, i requires 0 <= i < |sources| => Finished(sources[i]))
  }

  /** Source bytes still to be passed on. */
  function Pending(pes: seq<PendingPES>): nat {
    if pes == [] then 0 else pes[0].bytes + Pending(pes[1..])
  }

  ghost predicate Matches(p: PendingPES, s: Source) {
    && p.header == s.input.header
    && p.ended == s.input.ended
    && |s.images| + p.bytes == s.input.size
    && (!p.started ==> s.images == [])
  }

  /** `done` were passed on completely, `queued` are in the queue. */
  ghost predicate QueueOk(pes: seq<PendingPES>, done: seq<Source>, queued: seq<Source>) {
    && |pes| == |queued|
    && (forall i :: 0 <= i < |done| ==> done[i].input.ended && |done[i].images| == done[i].input.size)
    && (forall i :: 0 <= i < |pes| ==> Matches(pes[i], queued[i]))
    && (forall i :: 1 <= i < |pes| ==> !pes[i].started)
    && (forall i :: 0 <= i < |pes| - 1 ==> pes[i].ended)
  }

  /** The first PES cannot be closed yet. */
  predicate Settled(pes: seq<PendingPES>) {
    pes != [] ==> !(pes[0].ended && pes[0].bytes == 0)
  }

  /** Some invariants are stated under `forall k :: Unfold(k) ==> ...`: they are
    * available where Unfold is mentioned and stay folded everywhere else. */
  ghost predicate Unfold(k: int) {
    true
  }

  ghost predicate UnfoldQueue(k: int) {
    true
  }

  /** The whole invariant: the bookkeeping is consistent and the trace groups into
    * the finished PES packets followed by the one that is being sent. */
  ghost predicate QueueInv(pes: seq<PendingPES>, events: seq<Event>, done: seq<Source>, queued: seq<Source>) {
    && |pes| == |queued|
    && forall k {:trigger Unfold(k)} :: Unfold(k) ==>
      QueueOk(pes, done, queued) && Group(events) == Some(Delivered(pes, done, queued))
  }

  ghost function Delivered(pes: seq<PendingPES>, done: seq<Source>, queued: seq<Source>): seq<PES>
    requires |pes| == |queued|
  {
    AllFinished(done)
    + if pes != [] && pes[0].started then [PES(pes[0].header, Flatten(queued[0].images), false)] else []
  }

  function AllInputs(done: seq<Source>, queued: seq<Source>): seq<Input> {
    Inputs(done) + Inputs(queued)
  }

  function Sent(done: seq<Source>, queued: seq<Source>): Images {
    Join(done) + if queued == [] then [] else queued[0].images
  }

  /** Whether an input PES is open: it is the last in the queue. */
  predicate IsOpen(pes: seq<PendingPES>) {
    pes != [] && !pes[|pes| - 1].ended
  }

  /** Only the last PES can be open, so a byte that is owed is owed by the first one. */
  lemma HeadHasBytes(pes: seq<PendingPES>, done: seq<Source>, queued: seq<Source>)
    requires QueueOk(pes, done, queued) && Settled(pes) && Pending(pes) > 0
    ensures pes != [] && pes[0].bytes > 0
  {
    assert |pes| == 1 ==> pes[1..] == [];
  }

  /** Nothing open and nothing owed: a settled queue is empty. */
  lemma ClosedIsEmpty(pes: seq<PendingPES>, done: seq<Source>, queued: seq<Source>)
    requires QueueOk(pes, done, queued) && Settled(pes) && Pending(pes) == 0 && !IsOpen(pes)
    ensures pes == []
  {
  }

  lemma {:induction false} PendingAppend(pes: seq<PendingPES>, p: PendingPES)
    ensures Pending(pes + [p]) == Pending(pes) + p.bytes
  {
    if pes != [] {
      PendingAppend(pes[1..], p);
      assert (pes + [p])[1..] == pes[1..] + [p];
    } else {
      assert (pes + [p])[1..] == [];
    }
  }

  lemma PendingLast(pes: seq<PendingPES>, p: PendingPES)
    requires pes != []
    ensures Pending(pes[|pes| - 1 := p]) == Pending(pes) - pes[|pes| - 1].bytes + p.bytes
  {
    var n := |pes| - 1;
    PendingAppend(pes[..n], pes[n]);
    PendingAppend(pes[..n], p);
    assert pes == pes[..n] + [pes[n]];
    assert pes[n := p] == pes[..n] + [p];
  }

  function Last<T>(s: seq<T>): T
    requires s != []
  {
    s[|s| - 1]
  }

  function ReplaceLast<T>(s: seq<T>, x: T): seq<T>
    requires s != []
  {
    s[..|s| - 1] + [x]
  }

  lemma ReplaceLastOf<T>(s: seq<T>, x: T, y: T)
    ensures Last(s + [x]) == x && ReplaceLast(s + [x], y) == s + [y]
  {
  }

  // ---- the steps, as facts about values ----

  lemma {:induction false} StartStep(pes: seq<PendingPES>, events: seq<Event>, done: seq<Source>, queued: seq<Source>)
    requires QueueInv(pes, events, done, queued) && pes != [] && !pes[0].started
    ensures QueueInv(pes[0 := pes[0].(started := true)], events + [Header(pes[0].header)], done, queued)
    ensures Pending(pes[0 := pes[0].(started := true)]) == Pending(pes)
  {
    assert Unfold(0);
    GroupAppend(events, Header(pes[0].header));
    assert Matches(pes[0], queued[0]);
    assert pes[0 := pes[0].(started := true)][1..] == pes[1..];
    assert Delivered(pes, done, queued) == AllFinished(done);
  }

  lemma {:induction false} OpenStep(pes: seq<PendingPES>, events: seq<Event>, done: seq<Source>,
    queued: seq<Source>, header: seq<byte>)
    requires QueueInv(pes, events, done, queued) && Settled(pes) && !IsOpen(pes)
    ensures var p := pes + [PendingPES(header, 0, false, false)];
      var q := queued + [Source(Input(header, 0, false), [])];
      && QueueInv(p, events, done, q) && Settled(p)
      && Pending(p) == Pending(pes)
      && AllInputs(done, q) == AllInputs(done, queued) + [Input(header, 0, false)]
      && Sent(done, q) == Sent(done, queued)
  {
    assert Unfold(0);
    var p := pes + [PendingPES(header, 0, false, false)];
    var q := queued + [Source(Input(header, 0, false), [])];
    PendingAppend(pes, PendingPES(header, 0, false, false));
    assert QueueOk(p, done, q);
    assert Inputs(q) == Inputs(queued) + [Input(header, 0, false)];
    assert Delivered(p, done, q) == Delivered(pes, done, queued);
  }

  /** Changing the last PES: more bytes, or its end. */
  lemma {:induction false} LastStep(pes: seq<PendingPES>, events: seq<Event>, done: seq<Source>,
    queued: seq<Source>, n: nat, ended: bool)
    requires QueueInv(pes, events, done, queued) && IsOpen(pes)
    ensures var k := |pes| - 1;
      var input := queued[k].input.(size := queued[k].input.size + n, ended := ended);
      var p := pes[k := pes[k].(bytes := pes[k].bytes + n, ended := ended)];
      var q := queued[k := queued[k].(input := input)];
      && QueueInv(p, events, done, q)
      && Pending(p) == Pending(pes) + n && IsOpen(p) == !ended
      && (Settled(pes) && !ended ==> Settled(p))
      && Sent(done, q) == Sent(done, queued)
      && AllInputs(done, queued) != [] && !Last(AllInputs(done, queued)).ended
        && Last(AllInputs(done, queued)) == queued[k].input
      && AllInputs(done, q) == ReplaceLast(AllInputs(done, queued), input)
  {
    var k := |pes| - 1;
    LastMatches(pes, events, done, queued);
    var input := queued[k].input.(size := queued[k].input.size + n, ended := ended);
    PendingLast(pes, pes[k].(bytes := pes[k].bytes + n, ended := ended));
    InputsLast(done, queued, input);
    LastInvariant(pes, events, done, queued, pes[k].(bytes := pes[k].bytes + n, ended := ended), input);
  }

  lemma LastMatches(pes: seq<PendingPES>, events: seq<Event>, done: seq<Source>, queued: seq<Source>)
    requires QueueInv(pes, events, done, queued) && IsOpen(pes)
    ensures Matches(pes[|pes| - 1], queued[|pes| - 1]) && !queued[|pes| - 1].input.ended
  {
    assert Unfold(0);
  }

  lemma LastInvariant(pes: seq<PendingPES>, events: seq<Event>, done: seq<Source>, queued: seq<Source>,
    last: PendingPES, input: Input)
    requires QueueInv(pes, events, done, queued) && pes != []
    requires var was := pes[|pes| - 1];
      last.header == was.header && last.started == was.started && Matches(last, queued[|pes| - 1].(input := input))
    ensures var k := |pes| - 1;
      QueueInv(pes[k := last], events, done, queued[k := queued[k].(input := input)])
  {
    assert Unfold(0);
    var k := |pes| - 1;
    var p, q := pes[k := last], queued[k := queued[k].(input := input)];
    assert QueueOk(p, done, q);
    assert Delivered(p, done, q) == Delivered(pes, done, queued);
  }

  lemma {:induction false} InputsLast(done: seq<Source>, queued: seq<Source>, input: Input)
    requires queued != []
    ensures var q := queued[|queued| - 1 := queued[|queued| - 1].(input := input)];
      && AllInputs(done, queued) != [] && Last(AllInputs(done, queued)) == queued[|queued| - 1].input
      && AllInputs(done, q) == ReplaceLast(AllInputs(done, queued), input)
  {
    var k := |queued| - 1;
    var q := queued[k := queued[k].(input := input)];
    assert Inputs(q) == Inputs(queued[..k]) + [input];
    assert Inputs(queued) == Inputs(queued[..k]) + [queued[k].input];
    assert AllInputs(done, q) == AllInputs(done, queued[..k]) + [input];
    assert AllInputs(done, queued) == AllInputs(done, queued[..k]) + [queued[k].input];
  }

  lemma {:induction false} FinishStep(pes: seq<PendingPES>, events: seq<Event>, done: seq<Source>, queued: seq<Source>)
    requires QueueInv(pes, events, done, queued)
    requires pes != [] && pes[0].started && pes[0].ended && pes[0].bytes == 0
    ensures QueueInv(pes[1..], events + [End], done + [queued[0]], queued[1..])
    ensures Pending(pes[1..]) == Pending(pes)
    ensures AllInputs(done + [queued[0]], queued[1..]) == AllInputs(done, queued)
    ensures Sent(done + [queued[0]], queued[1..]) == Sent(done, queued)
  {
    assert Unfold(0);
    var s := queued[0];
    assert Matches(pes[0], s);
    GroupAppend(events, End);
    var sofar := Delivered(pes, done, queued);
    assert sofar[|sofar| - 1 := sofar[|sofar| - 1].(ended := true)] == AllFinished(done + [s]);
    assert QueueOk(pes[1..], done + [s], queued[1..]) by {
      assert forall i :: 0 <= i < |pes| - 1 ==> Matches(pes[1..][i], queued[1..][i]) by {
        forall i | 0 <= i < |pes| - 1 ensures Matches(pes[1..][i], queued[1..][i]) { assert Matches(pes[i + 1],
          queued[i + 1]); }
      }
    }
    assert Delivered(pes[1..], done + [s], queued[1..]) == AllFinished(done + [s]);
    assert Inputs(done + [s]) + Inputs(queued[1..]) == Inputs(done) + Inputs(queued);
    JoinAppend(done, s);
    if pes[1..] != [] {
      assert Matches(pes[1], queued[1]);
    }
  }

  lemma {:induction false} WriteStep(pes: seq<PendingPES>, events: seq<Event>, done: seq<Source>, queued: seq<Source>,
                  n: nat, output: seq<byte>, images: Images)
    requires QueueInv(pes, events, done, queued) && pes != [] && pes[0].started && n <= pes[0].bytes
    requires |images| == n && output == Flatten(images)
    ensures var p := pes[0 := pes[0].(bytes := pes[0].bytes - n)];
      var q := queued[0 := queued[0].(images := queued[0].images + images)];
      && QueueInv(p, events + [Payload(output)], done, q)
      && Pending(p) == Pending(pes) - n
      && AllInputs(done, q) == AllInputs(done, queued)
      && Sent(done, q) == Sent(done, queued) + images
      && IsOpen(p) == IsOpen(pes)
  {
    assert Unfold(0);
    var p := pes[0 := pes[0].(bytes := pes[0].bytes - n)];
    var q := queued[0 := queued[0].(images := queued[0].images + images)];
    assert Matches(pes[0], queued[0]);
    GroupAppend(events, Payload(output));
    FlattenConcat(queued[0].images, images);
    ConcatAssociates(Join(done), queued[0].images, images);
    assert p[1..] == pes[1..];
    assert QueueOk(p, done, q);
    assert Inputs(q) == Inputs(queued);
    var sofar := Delivered(pes, done, queued);
    assert Delivered(p, done, q)
      == sofar[|sofar| - 1 := sofar[|sofar| - 1].(payload := sofar[|sofar| - 1].payload + output)];
  }

  // ---- the outcome when the queue is empty ----

  function TotalSize(inputs: seq<Input>): nat {
    if inputs == [] then 0 else TotalSize(inputs[..|inputs| - 1]) + inputs[|inputs| - 1].size
  }

  /** Hand the images out again: every input PES gets the images of its own source bytes. */
  function Share(inputs: seq<Input>, images: Images): (r: seq<PES>)
    requires |images| == TotalSize(inputs)
    ensures |r| == |inputs|
    decreases |inputs|
  {
    if inputs == [] then []
    else
      var k := |inputs| - 1;
      var cut := TotalSize(inputs[..k]);
      Share(inputs[..k], images[..cut]) + [PES(inputs[k].header, Flatten(images[cut..]), true)]
  }

  /** What was delivered is exactly what Share hands out. */
  lemma {:induction false} FinishedIsShare(done: seq<Source>)
    requires forall i :: 0 <= i < |done| ==> |done[i].images| == done[i].input.size
    ensures |Join(done)| == TotalSize(Inputs(done))
    ensures AllFinished(done) == Share(Inputs(done), Join(done))
    decreases |done|
  {
    if done != [] {
      var k := |done| - 1;
      FinishedIsShare(done[..k]);
      assert Inputs(done)[..k] == Inputs(done[..k]);
      assert AllFinished(done) == AllFinished(done[..k]) + [Finished(done[k])];
      var all := Join(done);
      assert all[..|Join(done[..k])|] == Join(done[..k]) && all[|Join(done[..k])|..] == done[k].images;
    }
  }

  /** Once everything has been passed on, the trace is a list of whole PES packets
    * in source order, each holding exactly the images of its own source bytes. */
  lemma EmptyQueue(pes: seq<PendingPES>, events: seq<Event>, done: seq<Source>, queued: seq<Source>)
    requires QueueInv(pes, events, done, queued) && pes == []
    ensures |Sent(done, queued)| == TotalSize(AllInputs(done, queued))
    ensures Group(events) == Some(Share(AllInputs(done, queued), Sent(done, queued)))
  {
    assert Unfold(0);
    assert AllInputs(done, queued) == Inputs(done) && Sent(done, queued) == Join(done);
    FinishedIsShare(done);
    assert Delivered(pes, done, queued) == AllFinished(done);
  }

  /** PES packets whose output has not begun. */
  function Waiting(pes: seq<PendingPES>): nat {
    if pes != [] && pes[0].started then |pes| - 1 else |pes|
  }

  lemma WaitingIs(pes: seq<PendingPES>, done: seq<Source>, queued: seq<Source>)
    requires |pes| == |queued|
    ensures |Delivered(pes, done, queued)| + Waiting(pes) == |AllInputs(done, queued)|
  {
  }

  ghost predicate UnfoldGrown(k: int) {
    true
  }

  /** `before` is how the trace began. Sealed. */
  ghost predicate Grown(before: seq<Event>, events: seq<Event>) {
    forall k {:trigger UnfoldGrown(k)} :: UnfoldGrown(k) ==> before <= events
  }

  lemma GrownMore(before: seq<Event>, events: seq<Event>, e: Event)
    requires Grown(before, events)
    ensures Grown(before, events + [e])
  {
    assert UnfoldGrown(0);
  }

  /** What an observer has seen of the trace at some point; the trace only grows. */
  class Observer {
    ghost var seen: seq<Event>
  }

  class PESQueue {
    var pes: seq<PendingPES>
    /** Everything sent to the downstream handler. */
    var events: seq<Event>
    ghost const observer: Observer

    ghost var done: seq<Source>
    ghost var queued: seq<Source>

    // What a transformer needs to know about the queue.
    /** The input PES packets received so far. */
    ghost var received: seq<Input>
    /** The images of all source bytes passed on so far. */
    ghost var passedOn: Images
    /** The number of source bytes received and not yet passed on. */
    ghost var owed: nat
    /** An input PES is open. */
    ghost var open: bool

    ghost predicate Inv()
      reads this, observer
    {
      && QueueInv(pes, events, done, queued)
      && Grown(observer.seen, events)
      && received == AllInputs(done, queued) && passedOn == Sent(done, queued)
      && owed == Pending(pes) && open == IsOpen(pes)
    }

    ghost predicate Valid()
      reads this, observer
    {
      forall k {:trigger UnfoldQueue(k)} :: UnfoldQueue(k) ==> Inv() && Settled(pes)
    }

    constructor ()
      ensures Valid() && pes == [] && events == [] && fresh(observer)
      ensures received == [] && passedOn == [] && owed == 0 && !open
    {
      pes, events, done, queued := [], [], [], [];
      received, passedOn, owed, open := [], [], 0, false;
      observer := new Observer;
      new;
      observer.seen := [];
      assert QueueOk(pes, done, queued);
      assert Delivered(pes, done, queued) == [];
    }

    /** A byte that is owed is owed by the first PES of the queue. */
    lemma OwedByFirst()
      requires Valid() && owed > 0
      ensures pes != [] && 0 < pes[0].bytes
    {
      assert UnfoldQueue(0);
      assert Unfold(0);
      HeadHasBytes(pes, done, queued);
    }

    /** With nothing owed and nothing open the trace is complete. */
    lemma AllDelivered()
      requires Valid() && owed == 0 && !open
      ensures pes == []
      ensures |passedOn| == TotalSize(received)
      ensures Group(events) == Some(Share(received, passedOn))
    {
      assert UnfoldQueue(0);
      assert Unfold(0);
      ClosedIsEmpty(pes, done, queued);
      EmptyQueue(pes, events, done, queued);
    }

    /** Each input PES has begun downstream or waits in the queue. */
    lemma BegunOrWaiting()
      requires Valid()
      ensures Group(events).Some? && |Group(events).value| + Waiting(pes) == |received|
    {
      assert UnfoldQueue(0);
      assert Unfold(0);
      WaitingIs(pes, done, queued);
    }

    /** If an input PES is open and none waits, it is the one that is open downstream. */
    lemma OpenDownstream()
      requires Valid() && open && Waiting(pes) == 0
      ensures Group(events).Some? && Group(events).value != [] && !Last(Group(events).value).ended
    {
      assert UnfoldQueue(0);
      assert Unfold(0);
    }

    /** The k-th PES that has begun downstream began with the k-th header received. */
    lemma BegunHeader(k: nat)
      requires Valid() && Group(events).Some? && k < |Group(events).value|
      ensures k < |received| && Group(events).value[k].header == received[k].header
    {
      assert UnfoldQueue(0);
      assert Unfold(0);
    }

    /** The trace has grown since it was observed. */
    lemma SeenBefore()
      requires Valid()
      ensures observer.seen <= events
    {
      assert UnfoldQueue(0) && UnfoldGrown(0);
    }

    ghost method Observe()
      requires Valid()
      modifies observer
      ensures Valid() && observer.seen == events
    {
      assert UnfoldQueue(0);
      observer.seen := events;
    }

    method Start()
      requires Inv() && pes != [] && !pes[0].started
      modifies this`pes, this`events
      ensures Inv()
      ensures |pes| == |old(pes)| && pes[0] == old(pes)[0].(started := true)
      ensures Settled(pes) == old(Settled(pes))
    {
      StartStep(pes, events, done, queued);
      GrownMore(observer.seen, events, Header(pes[0].header));
      events := events + [Header(pes[0].header)];
      pes := pes[0 := pes[0].(started := true)];
    }

    /** A new input PES; `eager` sends its header at once when nothing is queued before it. */
    method Open(header: seq<byte>, eager: bool)
      requires Valid() && !open
      modifies this
      ensures Valid() && open && owed == old(owed) && passedOn == old(passedOn)
      ensures received == old(received) + [Input(header, 0, false)]
    {
      assert UnfoldQueue(0);
      var first := pes == [];
      OpenStep(pes, events, done, queued, header);
      pes := pes + [PendingPES(header, 0, false, false)];
      queued := queued + [Source(Input(header, 0, false), [])];
      received, open := received + [Input(header, 0, false)], true;
      if eager && first {
        Start();
      }
    }

    /** More source bytes arrive for the open PES. */
    method Charge(n: nat)
      requires Valid() && open
      modifies this
      ensures Valid() && open && owed == old(owed) + n && passedOn == old(passedOn)
      ensures old(received) != []
      ensures received == ReplaceLast(old(received), Last(old(received)).(size := Last(old(received)).size + n))
    {
      assert UnfoldQueue(0);
      UpdateLast(n, false);
    }

    /** PESEnd: the open input PES has ended; it is closed downstream when its bytes have left. */
    method Close()
      requires Valid() && open
      modifies this
      ensures Valid() && !open && owed == old(owed) && passedOn == old(passedOn)
      ensures old(received) != []
      ensures received == ReplaceLast(old(received), Last(old(received)).(ended := true))
    {
      assert UnfoldQueue(0);
      UpdateLast(0, true);
      FinishPES();
    }

    method UpdateLast(n: nat, ended: bool)
      requires Inv() && open
      modifies this
      ensures Inv() && open == !ended && owed == old(owed) + n && passedOn == old(passedOn)
      ensures old(Settled(pes)) && !ended ==> Settled(pes)
      ensures old(received) != [] && !Last(old(received)).ended
      ensures received == ReplaceLast(old(received), Last(old(received)).(size := Last(old(received)).size + n,
        ended := ended))
    {
      var k := |pes| - 1;
      LastStep(pes, events, done, queued, n, ended);
      ghost var input := queued[k].input.(size := queued[k].input.size + n, ended := ended);
      pes := pes[k := pes[k].(bytes := pes[k].bytes + n, ended := ended)];
      queued := queued[k := queued[k].(input := input)];
      owed, open, received := owed + n, !ended, ReplaceLast(received, input);
    }

    /** finishPES: close every PES at the front whose input ended and whose bytes have left. */
    method FinishPES()
      requires Inv()
      modifies this`pes, this`events, this`done, this`queued
      ensures Valid()
    {
      while |pes| > 0 && pes[0].ended && pes[0].bytes == 0
        invariant Inv()
        decreases |pes|
      {
        FinishFirst();
      }
    }

    /** finishPES once more; between calls there is nothing left for it to do. */
    method Settle()
      requires Valid()
      modifies this`pes, this`events, this`done, this`queued
      ensures Valid()
    {
      assert UnfoldQueue(0);
      FinishPES();
    }

    method FinishFirst()
      requires Inv() && pes != [] && pes[0].ended && pes[0].bytes == 0
      modifies this`pes, this`events, this`done, this`queued
      ensures Inv() && |pes| == |old(pes)| - 1
    {
      if !pes[0].started {
        Start();
      }
      EndFirst();
    }

    method EndFirst()
      requires Inv() && pes != [] && pes[0].started && pes[0].ended && pes[0].bytes == 0
      modifies this`pes, this`events, this`done, this`queued
      ensures Inv() && |pes| == |old(pes)| - 1
    {
      FinishStep(pes, events, done, queued);
      GrownMore(observer.seen, events, End);
      events := events + [End];
      pes := pes[1..];
      done, queued := done + [queued[0]], queued[1..];
    }

    /** One round of `write`: `output` is what the next n source bytes of the first
      * PES have become; `images` is the same per source byte. */
    method WriteFirst(n: nat, output: seq<byte>, ghost images: Images)
      requires Valid() && pes != [] && n <= pes[0].bytes
      requires |images| == n && output == Flatten(images)
      modifies this
      ensures Valid() && open == old(open) && received == old(received)
      ensures n <= old(owed) && owed == old(owed) - n && passedOn == old(passedOn) + images
    {
      assert UnfoldQueue(0);
      if !pes[0].started {
        Start();
      }
      SendPayload(n, output, images);
      FinishPES();
    }

    method SendPayload(n: nat, output: seq<byte>, ghost images: Images)
      requires Inv() && pes != [] && pes[0].started && n <= pes[0].bytes
      requires |images| == n && output == Flatten(images)
      modifies this
      ensures Inv() && open == old(open) && received == old(received)
      ensures n <= old(owed) && owed == old(owed) - n && passedOn == old(passedOn) + images
    {
      WriteStep(pes, events, done, queued, n, output, images);
      GrownMore(observer.seen, events, Payload(output));
      events := events + [Payload(output)];
      pes := pes[0 := pes[0].(bytes := pes[0].bytes - n)];
      queued := queued[0 := queued[0].(images := queued[0].images + images)];
      owed, passedOn := owed - n, passedOn + images;
    }
  }
}
