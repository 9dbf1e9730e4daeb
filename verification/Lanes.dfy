/** The media streams of the remuxer, side by side: what one does, the others do not see. */
module Lanes {
  import opened Bytes
  import opened Wrappers
  import opened Packets
  import opened AlignerModel
  import opened Aligner
  import M = MediaTransformers
  import PC = PesCollector
  import opened StreamModel
  import opened PesShapes
  import opened MediaStreams
  import opened StreamFactory

  /** What a stream has been given and has handed back. */
  datatype View = View(kind: Kind, open: seq<nat>, registered: seq<nat>, source: seq<Packet>,
                       finished: seq<CompletedSlot>)

  /** What the stream has signalled to the PMT. */
  ghost function Told(v: View): Option<seq<byte>> {
    SetupFor(CodecFor(v.kind), v.source)
  }

  /** Everything that the calls of a stream change. */
  ghost function Footprint(s: MediaStream): set<object> {
    {s.collector, s.sink, s.sink.packetizer, s.sink.packetizer.payload, M.Queue(s.transformer).observer,
     M.Queue(s.transformer), M.Self(s.transformer)} + M.Objects(s.transformer)
  }

  ghost predicate UnfoldLane(k: int) { true }

  /** The stream is valid and as its view says. Sealed. */
  ghost predicate LaneIs(s: MediaStream, pid: nat, v: View)
    reads Footprint(s)
  {
    forall k {:trigger UnfoldLane(k)} :: UnfoldLane(k) ==>
    && s.Valid() && s.pid == pid && s.sink.packetizer.pid == pid && M.CodecOf(s.transformer) == CodecFor(v.kind)
    && s.sink.OpenTokens() == v.open && s.sink.registered == v.registered && s.sink.source == v.source
    && s.sink.finished == v.finished
  }

  // ---- one stream ----

  /** What a packet does to the view of a stream that takes it. */
  ghost predicate Advanced(v: View, w: View, token: nat, p: Packet, completed: seq<CompletedSlot>) {
    && w.kind == v.kind && w.registered == v.registered + [token] && w.source == v.source + [p]
    && w.finished == v.finished + completed && SlotTokens(completed) + w.open == v.open + [token]
    && (Told(v).Some? ==> Told(w) == Told(v))
  }

  /** With this packet the input of the stream is still fine. */
  ghost predicate Welcome(pid: nat, v: View, p: Packet) {
    p.pid == pid && Acceptable(CodecFor(v.kind), v.source + [p]) && AllPusi(v.source + [p])
  }

  method ConsumeLane(s: MediaStream, ghost pid: nat, ghost v: View, token: nat, p: Packet)
      returns (ok: bool, completed: seq<CompletedSlot>, ghost w: View)
    requires LaneIs(s, pid, v) && (p.pusi || !p.hasPayload || s.collector.active)
    modifies Footprint(s)
    ensures Welcome(pid, v, p) ==> ok
    ensures ok ==> LaneIs(s, pid, w) && p.pid == pid && Advanced(v, w, token, p, completed) && s.Setup() == Told(w)
  {
    hide Acceptable;
    assert UnfoldLane(0);
    ok, completed := s.Consume(token, p);
    w := View(v.kind, s.sink.OpenTokens(), s.sink.registered, s.sink.source, s.sink.finished);
    if ok {
      s.SetupFollows();
      if Told(v).Some? {
        SetupForStays(CodecFor(v.kind), v.source, p);
      }
    }
  }

  /** What a stream has handed back when it is flushed: every slot it was given, once and in
    * order, holding the transform of its packets. */
  ghost predicate Delivered(pid: nat, v: View, completed: seq<CompletedSlot>) {
    && Fine(CodecFor(v.kind), v.source) && AllPusi(v.source)
    && SlotTokens(completed) == v.open && SlotTokens(v.finished + completed) == v.registered
    && Output(pid, v.source, Transformed(CodecFor(v.kind), Received(v.source).state.out), SlotPackets(v.finished
      + completed))
  }

  method FlushLane(s: MediaStream, ghost pid: nat, ghost v: View) returns (ok: bool, completed: seq<CompletedSlot>)
    requires LaneIs(s, pid, v)
    modifies Footprint(s)
    ensures ok <==> Fine(CodecFor(v.kind), v.source) && AllPusi(v.source)
    ensures ok ==> Delivered(pid, v, completed) && s.Setup() == old(s.Setup())
  {
    assert UnfoldLane(0);
    ok, completed := s.Flush();
  }

  method NewLane(pid: nat, k: Kind) returns (s: MediaStream, ghost v: View)
    ensures LaneIs(s, pid, v) && fresh(Footprint(s))
    ensures v == View(k, [], [], [], []) && s.Setup() == Told(v)
  {
    hide CodecFor, SetupFor, MediaStream.Valid;
    s := NewStream(pid, k);
    s.SlotsKept();
    s.SetupFollows();
    v := View(k, [], [], [], []);
  }

  // ---- all streams ----

  ghost predicate UnfoldLanes(k: int) { true }

  /** Each stream is as its view says, no two have an object in common, and all their objects
    * are among `objects`. Sealed. */
  ghost predicate LanesAre(streams: map<nat, MediaStream>, views: map<nat, View>, objects: set<object>)
    reads objects
  {
    streams.Keys == views.Keys && forall k {:trigger UnfoldLanes(k)} :: UnfoldLanes(k) ==>
      && (forall pid :: pid in streams ==> Footprint(streams[pid]) <= objects)
      && (forall p, q :: p in streams && q in streams && p != q ==> Footprint(streams[p]) !! Footprint(streams[q]))
      && forall pid :: pid in streams ==> LaneIs(streams[pid], pid, views[pid])
  }

  lemma NoLanes()
    ensures LanesAre(map[], map[], {})
  {
  }

  lemma SamePids(streams: map<nat, MediaStream>, views: map<nat, View>, objects: set<object>)
    requires LanesAre(streams, views, objects)
    ensures streams.Keys == views.Keys
  {
  }

  lemma OneOfThem(streams: map<nat, MediaStream>, views: map<nat, View>, objects: set<object>, pid: nat)
    requires LanesAre(streams, views, objects) && pid in streams
    ensures pid in views && Footprint(streams[pid]) <= objects && LaneIs(streams[pid], pid, views[pid])
  {
    assert UnfoldLanes(0);
  }

  /** What a stream shows of its view: what it has signalled, and whether a PES is under way. */
  lemma LaneShows(s: MediaStream, pid: nat, v: View)
    requires LaneIs(s, pid, v)
    ensures s.Setup() == Told(v) && Collect(v.source).Ok?
    ensures s.collector.active <==> Collect(v.source).state.phase != PC.Idle
  {
    assert UnfoldLane(0);
    s.SetupFollows();
  }

  /** One stream and the others. */
  lemma TakeOut(streams: map<nat, MediaStream>, views: map<nat, View>, objects: set<object>, pid: nat)
    requires LanesAre(streams, views, objects) && pid in streams
    ensures Footprint(streams[pid]) <= objects && LaneIs(streams[pid], pid, views[pid])
    ensures LanesAre(streams - {pid}, views - {pid}, objects - Footprint(streams[pid]))
  {
    hide LaneIs;
    assert UnfoldLanes(0);
  }

  lemma PutIn(rest: map<nat, MediaStream>, views: map<nat, View>, objects: set<object>, pid: nat, s: MediaStream,
    v: View)
    requires LanesAre(rest, views, objects) && pid !in rest && LaneIs(s, pid, v) && Footprint(s) !! objects
    ensures LanesAre(rest[pid := s], views[pid := v], objects + Footprint(s))
  {
    hide LaneIs;
    assert UnfoldLanes(0);
  }

  lemma PutBack<T>(m: map<nat, T>, pid: nat, x: T)
    ensures (m - {pid})[pid := x] == m[pid := x]
    ensures pid in m ==> (m - {pid})[pid := m[pid]] == m
  {
  }

  lemma Rejoined(objects: set<object>, part: set<object>)
    requires part <= objects
    ensures objects - part + part == objects && part !! (objects - part)
  {
  }

  method ConsumeBeside(s: MediaStream, ghost pid: nat, ghost v: View, token: nat, p: Packet,
                       ghost rest: map<nat, MediaStream>, ghost views: map<nat, View>, ghost objects: set<object>)
      returns (ok: bool, completed: seq<CompletedSlot>, ghost w: View)
    requires LaneIs(s, pid, v) && (p.pusi || !p.hasPayload || s.collector.active)
    requires LanesAre(rest, views, objects) && Footprint(s) !! objects
    modifies Footprint(s)
    ensures LanesAre(rest, views, objects) && (Welcome(pid, v, p) ==> ok)
    ensures ok ==> LaneIs(s, pid, w) && p.pid == pid && Advanced(v, w, token, p, completed) && s.Setup() == Told(w)
  {
    ok, completed, w := ConsumeLane(s, pid, v, token, p);
  }

  method LanesConsume(streams: map<nat, MediaStream>, ghost views: map<nat, View>, ghost objects: set<object>, pid: nat,
                      token: nat, p: Packet)
      returns (ok: bool, completed: seq<CompletedSlot>, ghost w: View)
    requires LanesAre(streams, views, objects) && pid in streams
    requires p.pusi || !p.hasPayload || streams[pid].collector.active
    modifies Footprint(streams[pid])
    ensures Welcome(pid, views[pid], p) ==> ok
    ensures ok ==> LanesAre(streams, views[pid := w], objects) && p.pid == pid
    ensures ok ==> Advanced(views[pid], w, token, p, completed)
    ensures ok ==> streams[pid].Setup() == Told(w)
  {
    ghost var own := Footprint(streams[pid]);
    TakeOut(streams, views, objects, pid);
    ok, completed, w := ConsumeBeside(streams[pid], pid, views[pid], token, p, streams - {pid}, views - {pid},
      objects - own);
    if ok {
      PutIn(streams - {pid}, views - {pid}, objects - own, pid, streams[pid], w);
      PutBack(streams, pid, streams[pid]);
      PutBack(views, pid, w);
      Rejoined(objects, own);
    }
  }

  method FlushBeside(s: MediaStream, ghost pid: nat, ghost v: View, ghost rest: map<nat, MediaStream>,
                     ghost views: map<nat, View>, ghost objects: set<object>)
      returns (ok: bool, completed: seq<CompletedSlot>)
    requires LaneIs(s, pid, v) && LanesAre(rest, views, objects) && Footprint(s) !! objects
    modifies Footprint(s)
    ensures LanesAre(rest, views, objects)
    ensures ok <==> Fine(CodecFor(v.kind), v.source) && AllPusi(v.source)
    ensures ok ==> Delivered(pid, v, completed) && s.Setup() == old(s.Setup())
  {
    ok, completed := FlushLane(s, pid, v);
  }

  /** A stream that has been flushed is not used again. */
  method LanesFlush(streams: map<nat, MediaStream>, ghost views: map<nat, View>, ghost objects: set<object>, pid: nat)
      returns (ok: bool, completed: seq<CompletedSlot>)
    requires LanesAre(streams, views, objects) && pid in streams
    modifies Footprint(streams[pid])
    ensures LanesAre(streams - {pid}, views - {pid}, objects - Footprint(streams[pid]))
    ensures ok <==> Fine(CodecFor(views[pid].kind), views[pid].source) && AllPusi(views[pid].source)
    ensures ok ==> Delivered(pid, views[pid], completed) && streams[pid].Setup() == old(streams[pid].Setup())
  {
    ghost var own := Footprint(streams[pid]);
    TakeOut(streams, views, objects, pid);
    ok, completed := FlushBeside(streams[pid], pid, views[pid], streams - {pid}, views - {pid}, objects - own);
  }

  method NewBeside(pid: nat, k: Kind, ghost streams: map<nat, MediaStream>, ghost views: map<nat, View>,
    ghost objects: set<object>)
      returns (s: MediaStream, ghost v: View)
    requires LanesAre(streams, views, objects)
    ensures LanesAre(streams, views, objects) && LaneIs(s, pid, v) && fresh(Footprint(s))
    ensures v == View(k, [], [], [], []) && s.Setup() == Told(v)
  {
    s, v := NewLane(pid, k);
  }

  method NewLaneIn(ghost streams: map<nat, MediaStream>, ghost views: map<nat, View>, ghost objects: set<object>,
    pid: nat, k: Kind)
      returns (s: MediaStream, ghost v: View)
    requires LanesAre(streams, views, objects) && pid !in streams
    ensures LanesAre(streams[pid := s], views[pid := v], objects + Footprint(s)) && fresh(Footprint(s))
    ensures v == View(k, [], [], [], []) && s.Setup() == Told(v)
  {
    hide LanesAre, LaneIs;
    s, v := NewBeside(pid, k, streams, views, objects);
    PutIn(streams, views, objects, pid, s, v);
  }
}
