/** Who has to complete which output slot, and outputAssembler of ts/output.go, which keeps
  * the slots in input order.
  */
module Ownership {
  import opened Bytes
  import opened Packets
  import opened AlignerModel
  import opened CommitQueues

  /** The packets of an output slot. */
  type Output = seq<Packet>

  datatype Owner = Stream(pid: nat) | Gate | Current

  ghost predicate UnfoldOwners(k: int) { true }

  /** Every slot that is not complete has an owner, and no other slot has. Sealed. */
  ghost predicate Tracks(slots: seq<Slot<Output>>, owner: map<nat, Owner>) {
    forall k {:trigger UnfoldOwners(k)} :: UnfoldOwners(k) ==> forall t: nat :: t in owner <==> Accepts(slots, t)
  }

  ghost predicate Increasing(tokens: seq<nat>) {
    forall i, j :: 0 <= i < j < |tokens| ==> tokens[i] < tokens[j]
  }

  /** Exactly these slots, each once and in input order, are to be completed by `who`. Sealed. */
  ghost predicate Holds(tokens: seq<nat>, owner: map<nat, Owner>, who: Owner) {
    forall k {:trigger UnfoldOwners(k)} :: UnfoldOwners(k) ==>
      && Increasing(tokens)
      && (forall t :: t in tokens ==> t in owner && owner[t] == who)
      && (forall t :: t in owner && owner[t] == who ==> t in tokens)
  }

  /** Only slots of `who` have lost their owner. Sealed. */
  ghost predicate Fewer(before: map<nat, Owner>, after: map<nat, Owner>, who: Owner) {
    forall k {:trigger UnfoldOwners(k)} :: UnfoldOwners(k) ==>
      && (forall t :: t in after ==> t in before && after[t] == before[t])
      && (forall t :: t in before && before[t] != who ==> t in after)
  }

  lemma Nobody()
    ensures Tracks([], map[]) && Fewer(map[], map[], Gate)
    ensures forall who :: Holds([], map[], who)
  {
    forall who ensures Holds([], map[], who) {
    }
  }

  lemma NobodyHolds(owner: map<nat, Owner>, who: Owner)
    requires forall t :: t in owner ==> owner[t] != who
    ensures Holds([], owner, who)
  {
  }

  lemma SameOwners(owner: map<nat, Owner>, who: Owner)
    ensures Fewer(owner, owner, who)
  {
  }

  lemma FewerTwice(a: map<nat, Owner>, b: map<nat, Owner>, c: map<nat, Owner>, who: Owner)
    requires Fewer(a, b, who) && Fewer(b, c, who)
    ensures Fewer(a, c, who)
  {
    assert UnfoldOwners(0);
  }

  lemma Reserved(slots: seq<Slot<Output>>, owner: map<nat, Owner>)
    requires Tracks(slots, owner)
    ensures Tracks(Applied(slots, Op.Reserve, []), owner[|slots| := Current])
    ensures |slots| !in owner && forall t :: t in owner ==> t < |slots|
  {
    assert UnfoldOwners(0);
  }

  lemma Untouched(tokens: seq<nat>, owner: map<nat, Owner>, other: Owner, t: nat)
    requires Holds(tokens, owner, other) && t !in owner && other != Current
    ensures Holds(tokens, owner[t := Current], other)
  {
    assert UnfoldOwners(0);
  }

  lemma Renamed(slots: seq<Slot<Output>>, owner: map<nat, Owner>, t: nat, who: Owner)
    requires Tracks(slots, owner) && t in owner
    ensures Tracks(slots, owner[t := who])
  {
    assert UnfoldOwners(0);
  }

  /** The current slot is handed to `who`, behind everything it holds. */
  lemma Given(tokens: seq<nat>, owner: map<nat, Owner>, who: Owner, t: nat)
    requires Holds(tokens, owner, who) && t in owner && owner[t] == Current && who != Current
    requires forall s :: s in owner ==> s <= t
    ensures Holds(tokens + [t], owner[t := who], who)
  {
    assert UnfoldOwners(0);
    forall i | 0 <= i < |tokens| ensures tokens[i] < t {
      assert tokens[i] in tokens;
    }
  }

  lemma GivenElsewhere(tokens: seq<nat>, owner: map<nat, Owner>, other: Owner, who: Owner, t: nat)
    requires Holds(tokens, owner, other) && t in owner && owner[t] == Current && who != other && other != Current
    ensures Holds(tokens, owner[t := who], other)
  {
    assert UnfoldOwners(0);
  }

  /** `who` completes its first slot. */
  lemma FirstDone(slots: seq<Slot<Output>>, owner: map<nat, Owner>, who: Owner, tokens: seq<nat>, value: Output)
    requires Tracks(slots, owner) && Holds(tokens, owner, who) && tokens != []
    ensures Accepts(slots, tokens[0])
    ensures Tracks(Applied(slots, Op.Commit(tokens[0], value), []), owner - {tokens[0]})
    ensures Holds(tokens[1..], owner - {tokens[0]}, who)
    ensures Fewer(owner, owner - {tokens[0]}, who)
  {
    assert UnfoldOwners(0);
    var t := tokens[0];
    assert t in tokens;
    forall s | s in owner - {t} && owner[s] == who ensures s in tokens[1..] {
      var i :| 0 <= i < |tokens| && tokens[i] == s;
      assert tokens[1..][i - 1] == s;
    }
    forall s | s in tokens[1..] ensures s in owner - {t} && owner[s] == who {
      var i :| 0 <= i < |tokens[1..]| && tokens[1..][i] == s;
      assert tokens[i + 1] == s && tokens[0] < tokens[i + 1];
    }
  }

  lemma OthersHold(tokens: seq<nat>, before: map<nat, Owner>, after: map<nat, Owner>, who: Owner, other: Owner)
    requires Holds(tokens, before, other) && Fewer(before, after, who) && other != who
    ensures Holds(tokens, after, other)
  {
    assert UnfoldOwners(0);
  }

  // ---- all owners together ----

  ghost predicate UnfoldOwned(k: int) { true }

  /** The open slots are divided among the streams, the PMT gate and the packet that is being
    * handled; nothing is owned twice and nothing by nobody. Sealed. */
  ghost predicate Owned(slots: seq<Slot<Output>>, owner: map<nat, Owner>, streams: map<nat, seq<nat>>,
                        gate: seq<nat>, current: seq<nat>) {
    forall k {:trigger UnfoldOwned(k)} :: UnfoldOwned(k) ==>
      && Tracks(slots, owner) && Holds(gate, owner, Gate) && Holds(current, owner, Current)
      && (forall pid :: pid in streams ==> Holds(streams[pid], owner, Stream(pid)))
      && (forall t :: t in owner && owner[t].Stream? ==> owner[t].pid in streams)
  }

  lemma NothingOwned()
    ensures Owned([], map[], map[], [], [])
  {
    Nobody();
  }

  lemma OwnedReserve(slots: seq<Slot<Output>>, owner: map<nat, Owner>, streams: map<nat, seq<nat>>, gate: seq<nat>)
    requires Owned(slots, owner, streams, gate, [])
    ensures Owned(Applied(slots, Op.Reserve, []), owner[|slots| := Current], streams, gate, [|slots|])
  {
    assert UnfoldOwned(0);
    var t := |slots|;
    Reserved(slots, owner);
    Untouched(gate, owner, Gate, t);
    forall pid | pid in streams ensures Holds(streams[pid], owner[t := Current], Stream(pid)) {
      Untouched(streams[pid], owner, Stream(pid), t);
    }
    OnlyCurrent(owner, t);
  }

  lemma OnlyCurrent(owner: map<nat, Owner>, t: nat)
    requires Holds([], owner, Current)
    ensures Holds([t], owner[t := Current], Current)
  {
    assert UnfoldOwners(0);
  }

  lemma CurrentIsLast(slots: seq<Slot<Output>>, owner: map<nat, Owner>, streams: map<nat, seq<nat>>,
    gate: seq<nat>, t: nat)
    requires Owned(slots, owner, streams, gate, [t]) && t + 1 == |slots|
    ensures t in owner && owner[t] == Current && forall s :: s in owner ==> s <= t
  {
    assert UnfoldOwned(0) && UnfoldOwners(0);
    assert t in [t];
  }

  lemma NoCurrent(owner: map<nat, Owner>, t: nat, who: Owner)
    requires Holds([t], owner, Current) && who != Current
    ensures Holds([], owner[t := who], Current)
  {
    assert UnfoldOwners(0);
  }

  lemma OwnedToGate(slots: seq<Slot<Output>>, owner: map<nat, Owner>, streams: map<nat, seq<nat>>, gate: seq<nat>,
    t: nat)
    requires Owned(slots, owner, streams, gate, [t]) && t + 1 == |slots|
    ensures Owned(slots, owner[t := Gate], streams, gate + [t], [])
  {
    CurrentIsLast(slots, owner, streams, gate, t);
    assert UnfoldOwned(0);
    Renamed(slots, owner, t, Gate);
    Given(gate, owner, Gate, t);
    NoCurrent(owner, t, Gate);
    forall pid | pid in streams ensures Holds(streams[pid], owner[t := Gate], Stream(pid)) {
      GivenElsewhere(streams[pid], owner, Stream(pid), Gate, t);
    }
  }

  lemma OwnedToStream(slots: seq<Slot<Output>>, owner: map<nat, Owner>, streams: map<nat, seq<nat>>, gate: seq<nat>,
                      t: nat, pid: nat)
    requires Owned(slots, owner, streams, gate, [t]) && t + 1 == |slots| && pid in streams
    ensures Owned(slots, owner[t := Stream(pid)], streams[pid := streams[pid] + [t]], gate, [])
  {
    CurrentIsLast(slots, owner, streams, gate, t);
    assert UnfoldOwned(0);
    var who := Stream(pid);
    Renamed(slots, owner, t, who);
    GivenElsewhere(gate, owner, Gate, who, t);
    NoCurrent(owner, t, who);
    Given(streams[pid], owner, who, t);
    forall q | q in streams && q != pid ensures Holds(streams[q], owner[t := who], Stream(q)) {
      GivenElsewhere(streams[q], owner, Stream(q), who, t);
    }
  }

  /** The slots of one owner: its own field of the division. */
  function Portion(who: Owner, streams: map<nat, seq<nat>>, gate: seq<nat>, current: seq<nat>): seq<nat>
    requires who.Stream? ==> who.pid in streams
  {
    match who case Gate => gate case Current => current case Stream(pid) => streams[pid]
  }

  lemma OwnedPortion(slots: seq<Slot<Output>>, owner: map<nat, Owner>, streams: map<nat, seq<nat>>, gate: seq<nat>,
                   current: seq<nat>, who: Owner)
    requires Owned(slots, owner, streams, gate, current) && (who.Stream? ==> who.pid in streams)
    ensures Tracks(slots, owner) && Holds(Portion(who, streams, gate, current), owner, who)
  {
    assert UnfoldOwned(0);
  }

  /** One owner has completed some of its slots. */
  lemma OwnedFewer(slots: seq<Slot<Output>>, before: map<nat, Owner>, after: map<nat, Owner>, streams: map<nat,
    seq<nat>>,
                   gate: seq<nat>, current: seq<nat>, later: seq<Slot<Output>>, who: Owner, rest: seq<nat>)
    requires Owned(slots, before, streams, gate, current) && (who.Stream? ==> who.pid in streams)
    requires Tracks(later, after) && Holds(rest, after, who) && Fewer(before, after, who)
    ensures Owned(later, after, if who.Stream? then streams[who.pid := rest] else streams,
                  if who == Gate then rest else gate, if who == Current then rest else current)
  {
    assert UnfoldOwned(0);
    if who != Gate { OthersHold(gate, before, after, who, Gate); }
    if who != Current { OthersHold(current, before, after, who, Current); }
    forall pid | pid in streams && Stream(pid) != who ensures Holds(streams[pid], after, Stream(pid)) {
      OthersHold(streams[pid], before, after, who, Stream(pid));
    }
    StreamsKnown(before, after, who);
  }

  lemma StreamsKnown(before: map<nat, Owner>, after: map<nat, Owner>, who: Owner)
    requires Fewer(before, after, who)
    ensures forall t :: t in after ==> t in before && after[t] == before[t]
  {
    assert UnfoldOwners(0);
  }

  /** Whoever owns a token has it on its list. */
  lemma OwnerHasIt(owner: map<nat, Owner>, streams: map<nat, seq<nat>>, t: nat)
    requires t in owner
    requires owner[t].Stream? ==> owner[t].pid in streams && Holds(streams[owner[t].pid], owner, owner[t])
    requires owner[t] == Gate ==> Holds([], owner, Gate)
    requires owner[t] == Current ==> Holds([], owner, Current)
    ensures owner[t].Stream? && t in streams[owner[t].pid]
  {
    assert UnfoldOwners(0);
  }

  /** When nobody holds anything every slot is complete. */
  lemma NothingOpen(slots: seq<Slot<Output>>, owner: map<nat, Owner>, streams: map<nat, seq<nat>>)
    requires Owned(slots, owner, streams, [], []) && forall pid :: pid in streams ==> streams[pid] == []
    ensures forall t: nat :: !Accepts(slots, t)
  {
    assert UnfoldOwned(0) && UnfoldOwners(0);
    forall t: nat ensures !Accepts(slots, t) {
      if Accepts(slots, t) {
        OwnerHasIt(owner, streams, t);
      }
    }
  }

  /** A stream that has just been made holds nothing. */
  lemma OwnedNewStream(slots: seq<Slot<Output>>, owner: map<nat, Owner>, streams: map<nat, seq<nat>>, gate: seq<nat>,
                       current: seq<nat>, pid: nat)
    requires Owned(slots, owner, streams, gate, current) && pid !in streams
    ensures Owned(slots, owner, streams[pid := []], gate, current)
  {
    assert UnfoldOwned(0);
    NobodyHolds(owner, Stream(pid));
  }

  // ---- the assembler ----

  /** The slot list after some slots have been completed. */
  function CommitSlots(slots: seq<Slot<Output>>, done: seq<CompletedSlot>): seq<Slot<Output>>
    decreases |done|
  {
    if done == [] then slots
    else
      var n := |done| - 1;
      Applied(CommitSlots(slots, done[..n]), Op.Commit(done[n].token, done[n].packets), [])
  }

  lemma NextSlot(slots: seq<Slot<Output>>, done: seq<CompletedSlot>, i: nat, rest: seq<nat>)
    requires i < |done|
    ensures CommitSlots(slots, done[..i + 1]) ==
      Applied(CommitSlots(slots, done[..i]), Op.Commit(done[i].token, done[i].packets), [])
    ensures var tokens := SlotTokens(done[i..]) + rest;
      tokens != [] && tokens[0] == done[i].token && tokens[1..] == SlotTokens(done[i + 1..]) + rest
  {
    assert done[..i + 1][..i] == done[..i];
  }

  // ---- what committing changes ----

  ghost predicate UnfoldSame(k: int) { true }

  /** Only these slots may have changed. Sealed. */
  ghost predicate SameBut(before: seq<Slot<Output>>, after: seq<Slot<Output>>, tokens: seq<nat>) {
    |after| == |before|
    && forall k {:trigger UnfoldSame(k)} :: UnfoldSame(k) ==>
      forall t :: 0 <= t < |before| && t !in tokens ==> after[t] == before[t]
  }

  lemma {:induction false} CommitsSame(slots: seq<Slot<Output>>, done: seq<CompletedSlot>)
    ensures SameBut(slots, CommitSlots(slots, done), SlotTokens(done))
    decreases |done|
  {
    if done != [] {
      assert UnfoldSame(0);
      var n := |done| - 1;
      CommitsSame(slots, done[..n]);
      assert SlotTokens(done) == SlotTokens(done[..n]) + [done[n].token];
    }
  }

  /** Different open slots are all completed with their own packets. */
  lemma {:induction false} CommitsSet(slots: seq<Slot<Output>>, done: seq<CompletedSlot>, i: nat)
    requires i < |done| && Increasing(SlotTokens(done)) && Accepts(slots, done[i].token)
    ensures |CommitSlots(slots, done)| == |slots|
    ensures CommitSlots(slots, done)[done[i].token] == Slot(done[i].packets, true)
    decreases |done|
  {
    var n := |done| - 1;
    var front := done[..n];
    assert SlotTokens(front) == SlotTokens(done)[..n];
    CommitsSame(slots, front);
    if i < n {
      CommitsSet(slots, front, i);
      assert SlotTokens(done)[i] < SlotTokens(done)[n];
    } else {
      assert UnfoldSame(0);
      assert done[n].token !in SlotTokens(front) by {
        forall j | 0 <= j < n ensures SlotTokens(front)[j] != done[n].token {
          assert SlotTokens(done)[j] < SlotTokens(done)[n];
        }
      }
    }
  }

  /** A slot that is complete stays as it is. Sealed. */
  ghost predicate Kept(before: seq<Slot<Output>>, after: seq<Slot<Output>>) {
    forall k {:trigger UnfoldSame(k)} :: UnfoldSame(k) ==> Grows(before, after)
  }

  ghost predicate UnfoldPlaced(k: int) { true }

  /** These slots are complete, with these packets. Sealed. */
  ghost predicate Placed(slots: seq<Slot<Output>>, done: seq<CompletedSlot>) {
    forall k {:trigger UnfoldPlaced(k)} :: UnfoldPlaced(k) ==>
      forall i :: 0 <= i < |done| ==> done[i].token < |slots| && slots[done[i].token] == Slot(done[i].packets, true)
  }

  lemma KeptItself(slots: seq<Slot<Output>>)
    ensures Kept(slots, slots)
  {
  }

  lemma KeptTwice(a: seq<Slot<Output>>, b: seq<Slot<Output>>, c: seq<Slot<Output>>)
    requires Kept(a, b) && Kept(b, c)
    ensures Kept(a, c)
  {
    assert UnfoldSame(0);
    forall t | 0 <= t < |a| && a[t].ready ensures c[t] == a[t] {
      assert b[t] == a[t];
    }
  }

  lemma PlacedKept(a: seq<Slot<Output>>, b: seq<Slot<Output>>, done: seq<CompletedSlot>)
    requires Placed(a, done) && Kept(a, b)
    ensures Placed(b, done)
  {
    assert UnfoldSame(0) && UnfoldPlaced(0);
  }

  lemma PlacedBoth(slots: seq<Slot<Output>>, a: seq<CompletedSlot>, b: seq<CompletedSlot>)
    requires Placed(slots, a) && Placed(slots, b)
    ensures Placed(slots, a + b)
  {
    assert UnfoldPlaced(0);
  }

  lemma PlacedNothing(slots: seq<Slot<Output>>)
    ensures Placed(slots, [])
  {
  }

  lemma ReserveKeeps(slots: seq<Slot<Output>>)
    ensures Kept(slots, Applied(slots, Op.Reserve, []))
  {
  }

  lemma {:induction false} CommitsKeep(slots: seq<Slot<Output>>, done: seq<CompletedSlot>)
    ensures Kept(slots, CommitSlots(slots, done))
    decreases |done|
  {
    if done == [] {
      KeptItself(slots);
    } else {
      var n := |done| - 1;
      CommitsKeep(slots, done[..n]);
      AppliedGrows(CommitSlots(slots, done[..n]), Op.Commit(done[n].token, done[n].packets), []);
      KeptTwice(slots, CommitSlots(slots, done[..n]), CommitSlots(slots, done));
    }
  }

  /** An owner that completes its oldest slots completes each of them as it says. */
  lemma CommitsPlace(slots: seq<Slot<Output>>, owner: map<nat, Owner>, who: Owner, done: seq<CompletedSlot>,
    rest: seq<nat>)
    requires Tracks(slots, owner) && Holds(SlotTokens(done) + rest, owner, who)
    ensures Placed(CommitSlots(slots, done), done) && Kept(slots, CommitSlots(slots, done))
  {
    CommitsKeep(slots, done);
    AllOpen(slots, owner, who, done, rest);
    forall i | 0 <= i < |done|
      ensures done[i].token < |CommitSlots(slots, done)| && CommitSlots(slots, done)[done[i].token] ==
        Slot(done[i].packets, true)
    {
      CommitsSet(slots, done, i);
    }
  }

  lemma AllOpen(slots: seq<Slot<Output>>, owner: map<nat, Owner>, who: Owner, done: seq<CompletedSlot>, rest: seq<nat>)
    requires Tracks(slots, owner) && Holds(SlotTokens(done) + rest, owner, who)
    ensures Increasing(SlotTokens(done)) && forall i :: 0 <= i < |done| ==> Accepts(slots, done[i].token)
  {
    assert UnfoldOwners(0);
    var all := SlotTokens(done) + rest;
    forall i | 0 <= i < |done| ensures Accepts(slots, done[i].token) {
      assert all[i] == done[i].token && all[i] in all;
    }
    forall i, j | 0 <= i < j < |done| ensures SlotTokens(done)[i] < SlotTokens(done)[j] {
      assert all[i] < all[j];
    }
  }

  // ---- the streams are flushed one after the other ----

  ghost predicate UnfoldOnly(k: int) { true }

  /** The slots that each stream has handed back are complete; no other slot has changed. Sealed. */
  ghost predicate Only(before: seq<Slot<Output>>, after: seq<Slot<Output>>, flushed: map<nat, seq<CompletedSlot>>) {
    |after| == |before|
    && (forall pid :: pid in flushed ==> Placed(after, flushed[pid]))
    && forall k {:trigger UnfoldOnly(k)} :: UnfoldOnly(k) ==>
      forall t :: 0 <= t < |before| && (forall pid :: pid in flushed ==> t !in SlotTokens(flushed[pid])) ==>
        after[t] == before[t]
  }

  lemma NothingFlushed(slots: seq<Slot<Output>>)
    ensures Only(slots, slots, map[])
  {
  }

  /** One stream more. */
  lemma OneMoreFlushed(before: seq<Slot<Output>>, sofar: seq<Slot<Output>>, after: seq<Slot<Output>>,
                       flushed: map<nat, seq<CompletedSlot>>, pid: nat, slots: seq<CompletedSlot>)
    requires Only(before, sofar, flushed) && pid !in flushed
    requires Kept(sofar, after) && SameBut(sofar, after, SlotTokens(slots)) && Placed(after, slots)
    ensures Only(before, after, flushed[pid := slots])
  {
    assert UnfoldOnly(0) && UnfoldSame(0);
    var more := flushed[pid := slots];
    forall q | q in more ensures Placed(after, more[q]) {
      if q != pid {
        PlacedKept(sofar, after, flushed[q]);
      }
    }
    forall t | 0 <= t < |before| && (forall q :: q in more ==>
      t !in SlotTokens(more[q])) ensures after[t] == before[t] {
      assert pid in more && t !in SlotTokens(slots);
      forall q | q in flushed ensures t !in SlotTokens(flushed[q]) {
        assert q in more;
      }
    }
  }

  /** What a flush leaves follows from what the streams hand back, whatever their order. */
  lemma FlushIsDetermined(before: seq<Slot<Output>>, a: seq<Slot<Output>>, b: seq<Slot<Output>>, flushed: map<nat,
    seq<CompletedSlot>>)
    requires Only(before, a, flushed) && Only(before, b, flushed)
    ensures a == b
  {
    assert UnfoldOnly(0) && UnfoldPlaced(0);
    forall t | 0 <= t < |before| ensures a[t] == b[t] {
      if pid :| pid in flushed && t in SlotTokens(flushed[pid]) {
        var i :| 0 <= i < |flushed[pid]| && SlotTokens(flushed[pid])[i] == t;
        assert flushed[pid][i].token == t;
      }
    }
  }

  class OutputAssembler {
    const queue: CommitQueue<Output>
    const writer: Writer<Output>

    ghost predicate Valid()
      reads this, queue, writer
    {
      Follows(queue, writer) && queue.zero == []
    }

    /** The last attempt to write has failed. */
    ghost predicate Broken()
      reads writer
    {
      0 < writer.attempts && writer.fails(writer.attempts - 1)
    }

    constructor (fails: nat -> bool)
      ensures Valid() && queue.all == [] && writer.out == [] && writer.fails == fails && fresh(queue) && fresh(writer)
    {
      queue := new CommitQueue<Output>([]);
      writer := new Writer<Output>(fails);
    }

    method Reserve() returns (token: nat)
      requires Valid()
      modifies queue
      ensures Valid() && token == |old(queue.all)| && queue.all == Applied(old(queue.all), Op.Reserve, [])
    {
      ghost var before, n := queue.all, queue.first;
      token := queue.Reserve();
      assert queue.all[..n] == before[..n];
    }

    /** Complete a slot and write what can be written. The queue refuses no slot that has an
      * owner; only writing can fail. */
    method Commit(slot: CompletedSlot) returns (ok: bool)
      requires Valid() && Accepts(queue.all, slot.token)
      modifies queue, writer
      ensures Valid() && queue.all == Applied(old(queue.all), Op.Commit(slot.token, slot.packets), [])
      ensures if ok then queue.first == ReadyPrefix(queue.all) else Broken()
    {
      ok := Perform(queue, writer, Op.Commit(slot.token, slot.packets));
      if !ok {
        assert false;
      }
      ok := Perform(queue, writer, Op.Drain);
    }

    /** Succeeds exactly if writing does and no slot is left without completion. */
    method Flush() returns (ok: bool, unresolved: bool)
      requires Valid()
      modifies queue, writer
      ensures Valid() && queue.all == old(queue.all)
      ensures ok ==> writer.out == Values(queue.all)
      ensures unresolved ==> exists t: nat :: Accepts(queue.all, t)
      ensures !ok && !unresolved ==> Broken()
    {
      ok := Perform(queue, writer, Op.Drain);
      unresolved := false;
      if ok {
        var n := queue.Len();
        if n != 0 {
          assert Accepts(queue.all, queue.first);
          return false, true;
        }
        assert queue.all[..queue.first] == queue.all;
      }
    }

    /** An owner completes its oldest slot, which the queue does not refuse. */
    method CommitFirst(slot: CompletedSlot, ghost tokens: seq<nat>, ghost owner: map<nat, Owner>,
      ghost who: Owner) returns (ok: bool)
      requires Valid() && Tracks(queue.all, owner) && Holds(tokens, owner, who) && tokens != []
        && tokens[0] == slot.token
      modifies queue, writer
      ensures Valid() && queue.all == Applied(old(queue.all), Op.Commit(slot.token, slot.packets), []) && (!ok ==>
        Broken())
      ensures Tracks(queue.all, owner - {slot.token}) && Holds(tokens[1..], owner - {slot.token}, who)
      ensures Fewer(owner, owner - {slot.token}, who)
    {
      FirstDone(queue.all, owner, who, tokens, slot.packets);
      ok := Commit(slot);
    }

    /** remuxer.commit: the slots of one owner, its oldest first. None of them is refused. */
    method CommitAll(slots: seq<CompletedSlot>, ghost rest: seq<nat>, ghost owner: map<nat, Owner>, ghost who: Owner)
        returns (ok: bool, ghost after: map<nat, Owner>)
      requires Valid() && Tracks(queue.all, owner) && Holds(SlotTokens(slots) + rest, owner, who)
      modifies queue, writer
      ensures Valid() && (ok ==> Tracks(queue.all, after) && Holds(rest, after, who) && Fewer(owner, after, who))
      ensures if ok then queue.all == CommitSlots(old(queue.all), slots) else Broken()
      ensures ok ==> Placed(queue.all, slots) && Kept(old(queue.all), queue.all)
    {
      CommitsPlace(queue.all, owner, who, slots, rest);
      after := owner;
      ok := true;
      SameOwners(owner, who);
      assert slots[0..] == slots;
      for i := 0 to |slots|
        invariant Valid() && Tracks(queue.all, after) && Fewer(owner, after, who)
        invariant Holds(SlotTokens(slots[i..]) + rest, after, who)
        invariant queue.all == CommitSlots(old(queue.all), slots[..i])
      {
        NextSlot(old(queue.all), slots, i, rest);
        ghost var tokens := SlotTokens(slots[i..]) + rest;
        ok := CommitFirst(slots[i], tokens, after, who);
        FewerTwice(owner, after, after - {slots[i].token}, who);
        after := after - {slots[i].token};
        if !ok {
          return;
        }
      }
      assert SlotTokens(slots[|slots|..]) + rest == rest && slots[..|slots|] == slots;
    }
  }
}
