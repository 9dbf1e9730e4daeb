/** The slots of ts/remuxer.go: every input packet reserves one, and exactly one of the packet
  * itself, its media stream or the PMT transformer completes it. The streams are in Remuxer;
  * here each is the list of its open slots.
  */
module SlotRouters {
  import opened Bytes
  import opened Wrappers
  import opened Packets
  import opened AlignerModel
  import opened CommitQueues
  import opened PsiSections
  import PG = PmtGate
  import opened Ownership

  datatype Outcome = Done | WriteFailed | PATError | PMTError | StreamError | PMTUnresolved | SlotsUnresolved

  /** What the PMT transformer holds after it has released some, out of what it held before
    * and what has arrived since. */
  lemma TokensMoved(arrived: seq<nat>, more: seq<nat>, before: seq<CompletedSlot>, after: seq<CompletedSlot>,
                    out: seq<CompletedSlot>, held: seq<nat>, rest: seq<nat>)
    requires before <= after && out == after[|before|..]
    requires arrived == SlotTokens(before) + held && arrived + more == SlotTokens(after) + rest
    ensures SlotTokens(out) + rest == held + more
  {
    assert SlotTokens(after) == SlotTokens(before) + SlotTokens(out);
    assert (arrived + more)[|before|..] == held + more;
    assert (SlotTokens(after) + rest)[|before|..] == SlotTokens(out) + rest;
  }

  lemma ReleasedPlaced(before: seq<Slot<Output>>, after: seq<Slot<Output>>, released: seq<CompletedSlot>,
    later: seq<CompletedSlot>)
    requires Placed(before, released) && Kept(before, after) && released <= later && Placed(after, later[|released|..])
    ensures Placed(after, later)
  {
    PlacedKept(before, after, released);
    PlacedBoth(after, released, later[|released|..]);
    assert released + later[|released|..] == later;
  }

  /** The gate has found a PMT in a packet and kept the packet's slot. */
  ghost predicate Took(a: PG.Arrival, token: nat, p: Packet) {
    a.token == token && a.packet == p && PG.CollectsAs(p, PG.Found(a.section, a.syntax))
  }

  /** Why the gate refuses a packet: it holds no proper PMT, or some PMT that is to be released
    * does not fit its packet when patched. */
  ghost predicate Refused(token: nat, p: Packet, arrived: seq<PG.Arrival>, released: nat, patches: PG.Patches) {
    || PG.CollectsAs(p, PG.BadPMT)
    || (arrived != [] && exists a :: Took(a, token, p) && PG.SomeMisfit(arrived + [a], released, patches))
  }

  function Newest(arrived: seq<PG.Arrival>): Syntax
    requires arrived != []
  {
    arrived[|arrived| - 1].syntax
  }

  class SlotRouter {
    const output: OutputAssembler
    const pmt: PG.PMTTransformer

    /** For each stream its open slots, and for each open slot its owner. */
    ghost var streams: map<nat, seq<nat>>
    ghost var owner: map<nat, Owner>

    /** Every slot that is not complete has one owner. */
    ghost predicate Divided(current: seq<nat>)
      reads this, output.queue, pmt
    {
      Owned(output.queue.all, owner, streams, PG.PendingTokens(pmt.pending), current)
    }

    /** While a packet is handled `current` holds its slot. */
    ghost predicate Working(current: seq<nat>)
      reads this, output, output.queue, output.writer, pmt, pmt.collector, PG.Objects(pmt.pending)
    {
      output.Valid() && pmt.Valid() && Divided(current) && Placed(output.queue.all, pmt.released)
    }

    ghost predicate Valid()
      reads this, output, output.queue, output.writer, pmt, pmt.collector, PG.Objects(pmt.pending)
    {
      Working([])
    }

    /** Everything that the methods below change. */
    ghost function Objects(): set<object>
      reads this, pmt
    {
      {this, output, output.queue, output.writer, pmt, pmt.collector} + PG.Objects(pmt.pending)
    }

    constructor (inputEncrypted: bool, fails: nat -> bool)
      ensures Valid() && output.queue.all == [] && streams == map[] && output.writer.out == []
        && output.writer.fails == fails
      ensures pmt.inputEncrypted == inputEncrypted && pmt.arrived == [] && pmt.patches == map[]
      ensures fresh(Objects())
    {
      output := new OutputAssembler(fails);
      pmt := new PG.PMTTransformer(inputEncrypted);
      streams, owner := map[], map[];
      new;
      NothingOwned();
      PlacedNothing(output.queue.all);
      assert PG.PendingTokens(pmt.pending) == [];
    }

    /** While a stream has not signalled, and before the first PMT, no PMT has been released;
      * when all have signalled, all have been. */
    lemma ReleasedSofar()
      requires pmt.Valid()
      ensures |pmt.used| == |pmt.released| <= |pmt.arrived|
      ensures pmt.arrived == [] || !PG.AllSignalled(pmt.patches) ==> pmt.used == []
      ensures PG.AllSignalled(pmt.patches) ==> |pmt.released| == |pmt.arrived|
    {
    }

    /** remuxer.commit, which leaves the PMT transformer alone. */
    method CommitAll(slots: seq<CompletedSlot>, ghost gate: seq<nat>, ghost current: seq<nat>,
      ghost rest: seq<nat>, ghost who: Owner)
        returns (ok: bool)
      requires output.Valid() && pmt.Valid() && Owned(output.queue.all, owner, streams, gate, current)
      requires (who.Stream? ==> who.pid in streams) && Portion(who, streams, gate, current) == SlotTokens(slots) + rest
      modifies output.queue, output.writer, this`owner
      ensures pmt.Valid() && (!ok ==> output.Broken())
      ensures ok ==> output.Valid() && Kept(old(output.queue.all), output.queue.all) && Placed(output.queue.all, slots)
      ensures ok ==> SameBut(old(output.queue.all), output.queue.all, SlotTokens(slots))
      ensures ok ==> Owned(output.queue.all, owner, if who.Stream? then streams[who.pid := rest] else streams,
                           if who == Gate then rest else gate, if who == Current then rest else current)
    {
      ghost var before, after := output.queue.all, owner;
      OwnedPortion(before, owner, streams, gate, current, who);
      CommitsSame(before, slots);
      ok, after := output.CommitAll(slots, rest, owner, who);
      if ok {
        OwnedFewer(before, owner, after, streams, gate, current, output.queue.all, who, rest);
        owner := after;
      }
    }

    /** The slots that the PMT transformer has released since `from` are completed. */
    method CommitReleased(from: nat, ghost released: seq<CompletedSlot>, ghost current: seq<nat>) returns (ok: bool)
      requires output.Valid() && pmt.Valid() && from <= |pmt.completed|
      requires released <= pmt.released && pmt.completed[from..] == pmt.released[|released|..]
        && Placed(output.queue.all, released)
      requires Owned(output.queue.all, owner, streams, SlotTokens(pmt.completed[from..])
        + PG.PendingTokens(pmt.pending), current)
      modifies output.queue, output.writer, this`owner
      ensures if ok then Working(current) else output.Broken()
      ensures ok ==> Kept(old(output.queue.all), output.queue.all) && |output.queue.all| == |old(output.queue.all)|
    {
      ghost var rest, before := PG.PendingTokens(pmt.pending), output.queue.all;
      ok := CommitAll(pmt.completed[from..], SlotTokens(pmt.completed[from..]) + rest, current, rest, Gate);
      if ok {
        ReleasedPlaced(before, output.queue.all, released, pmt.released);
      }
    }

    /** The packet itself completes its slot. */
    method PassThrough(token: nat, p: Packet) returns (r: Outcome)
      requires Working([token])
      modifies output.queue, output.writer, this`owner
      ensures r == Done || (r == WriteFailed && output.Broken())
      ensures r == Done ==> Valid() && Kept(old(output.queue.all), output.queue.all)
      ensures r == Done ==> Placed(output.queue.all, [CompletedSlot(token, [p])])
      ensures r == Done ==> |output.queue.all| == |old(output.queue.all)|
    {
      var slots := [CompletedSlot(token, [p])];
      ghost var gate, nothing: seq<nat>, before := PG.PendingTokens(pmt.pending), [], output.queue.all;
      assert SlotTokens(slots) + nothing == [token];
      var ok := CommitAll(slots, gate, [token], nothing, Current);
      if ok {
        PlacedKept(before, output.queue.all, pmt.released);
      }
      return if ok then Done else WriteFailed;
    }

    /** A stream announces its patch; that may release PMT packets at once. */
    method Signal(pid: nat, patch: PG.Patch, ghost current: seq<nat>) returns (r: Outcome)
      requires Working(current)
      modifies pmt, PG.Objects(pmt.pending), output.queue, output.writer, this`owner
      ensures r == Done || r == PMTError || (r == WriteFailed && output.Broken())
      ensures r == PMTError ==>
        PG.SomeMisfit(old(pmt.arrived), |old(pmt.released)|, old(pmt.patches)[pid := Some(patch)])
      ensures r == Done ==> Working(current) && pmt.arrived == old(pmt.arrived)
      ensures pmt.patches == old(pmt.patches)[pid := Some(patch)]
      ensures r == Done ==> old(pmt.used) <= pmt.used && PG.UsedFrom(pmt.used, |old(pmt.used)|, pmt.patches)
      ensures pmt.pending == [] || pmt.pending == old(pmt.pending) || r != Done
      ensures r == Done ==> Kept(old(output.queue.all), output.queue.all)
      ensures r == Done ==> |output.queue.all| == |old(output.queue.all)|
    {
      pmt.TokensKept();
      ghost var held, released := PG.PendingTokens(pmt.pending), pmt.released;
      var from := |pmt.completed|;
      var ok := pmt.Signal(pid, patch);
      if !ok {
        return PMTError;
      }
      pmt.TokensKept();
      ghost var arrived := PG.ArrivedTokens(pmt.arrived);
      assert arrived + [] == arrived && held + [] == held;
      assert pmt.completed[from..] == pmt.released[|released|..];
      TokensMoved(arrived, [], released, pmt.released, pmt.completed[from..], held, PG.PendingTokens(pmt.pending));
      ok := CommitReleased(from, released, current);
      return if ok then Done else WriteFailed;
    }

    /** A new stream. */
    ghost method AddStream(pid: nat)
      requires Valid() && pid !in streams
      modifies this`streams
      ensures Valid() && streams == old(streams)[pid := []]
    {
      OwnedNewStream(output.queue.all, owner, streams, PG.PendingTokens(pmt.pending), [], pid);
      streams := streams[pid := []];
    }

    /** A media stream completes its oldest slots. */
    method CommitStream(pid: nat, slots: seq<CompletedSlot>, ghost rest: seq<nat>) returns (r: Outcome)
      requires Valid() && pid in streams && streams[pid] == SlotTokens(slots) + rest
      modifies output.queue, output.writer, this`owner, this`streams
      ensures r == Done || (r == WriteFailed && output.Broken())
      ensures streams == old(streams)[pid := rest]
      ensures r == Done ==> Valid() && Kept(old(output.queue.all), output.queue.all) && Placed(output.queue.all, slots)
      ensures r == Done ==> SameBut(old(output.queue.all), output.queue.all, SlotTokens(slots))
    {
      ghost var before := output.queue.all;
      var ok := CommitAll(slots, PG.PendingTokens(pmt.pending), [], rest, Stream(pid));
      streams := streams[pid := rest];
      if ok {
        PlacedKept(before, output.queue.all, pmt.released);
      }
      return if ok then Done else WriteFailed;
    }

    /** The slot of a PMT that has been taken goes to the gate; what it released is completed. */
    method GiveToGate(token: nat, from: nat, ghost held: seq<nat>, ghost arrived: seq<nat>,
      ghost released: seq<CompletedSlot>)
        returns (r: Outcome)
      requires output.Valid() && pmt.Valid() && token + 1 == |output.queue.all| && Placed(output.queue.all, released)
      requires Owned(output.queue.all, owner, streams, held, [token])
      requires arrived == SlotTokens(released) + held && PG.ArrivedTokens(pmt.arrived) == arrived + [token]
      requires released <= pmt.released && from <= |pmt.completed|
        && pmt.completed[from..] == pmt.released[|released|..]
      modifies output.queue, output.writer, this`owner
      ensures r == Done || (r == WriteFailed && output.Broken())
      ensures r == Done ==> Valid() && Kept(old(output.queue.all), output.queue.all)
      ensures r == Done ==> |output.queue.all| == |old(output.queue.all)|
    {
      pmt.TokensKept();
      OwnedToGate(output.queue.all, owner, streams, held, token);
      owner := owner[token := Gate];
      TokensMoved(arrived, [token], released, pmt.released, pmt.completed[from..], held, PG.PendingTokens(pmt.pending));
      var ok := CommitReleased(from, released, []);
      r := if ok then Done else WriteFailed;
    }

    /** The gate looks at a packet. */
    method AskGate(token: nat, p: Packet) returns (ok: bool, section: PG.SectionObject?)
      requires pmt.Valid()
      modifies pmt, pmt.collector, PG.Objects(pmt.pending)
      ensures old(PG.ArrivedTokens(pmt.arrived)) == SlotTokens(old(pmt.released)) + old(PG.PendingTokens(pmt.pending))
      ensures ok ==> pmt.Valid() && fresh(PG.Objects(pmt.pending) - old(PG.Objects(pmt.pending)))
      ensures ok && section == null ==> pmt.pending == old(pmt.pending) && pmt.arrived == old(pmt.arrived)
      ensures ok && section == null ==> pmt.patches == old(pmt.patches) && pmt.released == old(pmt.released)
      ensures ok && section == null ==> pmt.used == old(pmt.used)
      ensures ok ==> old(pmt.used) <= pmt.used && PG.UsedFrom(pmt.used, |old(pmt.used)|, pmt.patches)
      ensures ok && section == null ==> PG.CollectsAs(p, PG.NoPMT)
      ensures ok && section != null && old(pmt.arrived) != [] ==> pmt.patches == old(pmt.patches)
      ensures ok && section != null ==> PG.ArrivedTokens(pmt.arrived) == old(PG.ArrivedTokens(pmt.arrived)) + [token]
      ensures ok && section != null ==> Freed(old(pmt.released), pmt.released, old(|pmt.completed|), pmt.completed)
      ensures ok && section != null ==>
        exists a :: pmt.arrived == old(pmt.arrived) + [a] && Took(a, token, p)
      ensures ok && section != null && old(pmt.patches) == map[] ==> section.syntax == Newest(pmt.arrived)
      ensures ok && section != null && old(pmt.arrived) == [] && old(pmt.patches) == map[] ==>
        PG.Awaiting(pmt.patches, pmt.arrived[0], pmt.inputEncrypted)
      ensures !ok && (old(pmt.arrived) == [] ==> old(pmt.patches) == map[]) ==>
        Refused(token, p, old(pmt.arrived), |old(pmt.released)|, old(pmt.patches))
    {
      pmt.TokensKept();
      ghost var c;
      ok, section, c := pmt.Consume(token, p);
      if !ok && c.Found? {
        ghost var a := PG.Arrival(token, p, c.section, c.syntax);
        assert Took(a, token, p);
        if old(pmt.arrived) == [] && old(pmt.patches) == map[] {
          assert pmt.arrived == [a];
          PG.FirstFits(a, pmt.patches, pmt.inputEncrypted);
        }
      }
      if ok && section != null {
        assert pmt.arrived == old(pmt.arrived) + [PG.Arrival(token, p, c.section, c.syntax)];
        assert PG.ArrivedTokens(pmt.arrived) == old(PG.ArrivedTokens(pmt.arrived)) + [token];
      }
    }

    /** What the gate has released since. */
    static ghost predicate Freed(before: seq<CompletedSlot>, after: seq<CompletedSlot>, from: nat,
      completed: seq<CompletedSlot>) {
      before <= after && from <= |completed| && completed[from..] == after[|before|..]
    }

    /** Asking the gate does not touch the slots. */
    method AskGateBeside(token: nat, p: Packet, ghost current: seq<nat>) returns (ok: bool, section: PG.SectionObject?)
      requires Working(current)
      modifies pmt, pmt.collector, PG.Objects(pmt.pending)
      ensures output.Valid() && Owned(output.queue.all, owner, streams, old(PG.PendingTokens(pmt.pending)), current)
      ensures Placed(output.queue.all, old(pmt.released))
      ensures old(PG.ArrivedTokens(pmt.arrived)) == SlotTokens(old(pmt.released)) + old(PG.PendingTokens(pmt.pending))
      ensures ok ==> pmt.Valid() && fresh(PG.Objects(pmt.pending) - old(PG.Objects(pmt.pending)))
      ensures ok && section == null ==> pmt.pending == old(pmt.pending) && pmt.arrived == old(pmt.arrived)
      ensures ok && section == null ==> pmt.patches == old(pmt.patches) && pmt.released == old(pmt.released)
      ensures ok && section == null ==> pmt.used == old(pmt.used)
      ensures ok ==> old(pmt.used) <= pmt.used && PG.UsedFrom(pmt.used, |old(pmt.used)|, pmt.patches)
      ensures ok && section == null ==> PG.CollectsAs(p, PG.NoPMT)
      ensures ok && section != null && old(pmt.arrived) != [] ==> pmt.patches == old(pmt.patches)
      ensures ok && section != null ==> PG.ArrivedTokens(pmt.arrived) == old(PG.ArrivedTokens(pmt.arrived)) + [token]
      ensures ok && section != null ==> Freed(old(pmt.released), pmt.released, old(|pmt.completed|), pmt.completed)
      ensures ok && section != null ==>
        exists a :: pmt.arrived == old(pmt.arrived) + [a] && Took(a, token, p)
      ensures ok && section != null && old(pmt.patches) == map[] ==> section.syntax == Newest(pmt.arrived)
      ensures ok && section != null && old(pmt.arrived) == [] && old(pmt.patches) == map[] ==>
        PG.Awaiting(pmt.patches, pmt.arrived[0], pmt.inputEncrypted)
      ensures !ok && (old(pmt.arrived) == [] ==> old(pmt.patches) == map[]) ==>
        Refused(token, p, old(pmt.arrived), |old(pmt.released)|, old(pmt.patches))
    {
      ok, section := AskGate(token, p);
    }

    /** A packet of the PMT's PID: the gate takes its slot, or passes the packet on. */
    method TakePMT(token: nat, p: Packet) returns (r: Outcome, section: PG.SectionObject?)
      requires Working([token]) && token + 1 == |output.queue.all|
      modifies pmt, pmt.collector, PG.Objects(pmt.pending), output.queue, output.writer, this`owner
      ensures r == Done ==> Valid() && Kept(old(output.queue.all), output.queue.all)
      ensures r == Done ==> |output.queue.all| == |old(output.queue.all)|
      ensures r == Done ==> fresh(PG.Objects(pmt.pending) - old(PG.Objects(pmt.pending)))
      ensures r == Done && section == null ==> Placed(output.queue.all, [CompletedSlot(token, [p])])
      ensures r == Done && section == null ==> pmt.arrived == old(pmt.arrived) && pmt.patches == old(pmt.patches)
      ensures r == Done && section == null ==> pmt.used == old(pmt.used)
      ensures r == Done && section != null ==>
        exists a :: pmt.arrived == old(pmt.arrived) + [a] && Took(a, token, p)
      ensures r == Done && section != null && old(pmt.patches) == map[] ==> section.syntax == Newest(pmt.arrived)
      ensures r == Done && section != null && old(pmt.arrived) == [] && old(pmt.patches) == map[] ==>
        PG.Awaiting(pmt.patches, pmt.arrived[0], pmt.inputEncrypted)
      ensures r == PMTError && (old(pmt.arrived) == [] ==> old(pmt.patches) == map[]) ==>
        Refused(token, p, old(pmt.arrived), |old(pmt.released)|, old(pmt.patches))
      ensures r == Done && section == null ==> PG.CollectsAs(p, PG.NoPMT)
      ensures r == Done && section != null && old(pmt.arrived) != [] ==> pmt.patches == old(pmt.patches)
      ensures r == Done ==> old(pmt.used) <= pmt.used && PG.UsedFrom(pmt.used, |old(pmt.used)|, pmt.patches)
      ensures r == Done || r == PMTError || (r == WriteFailed && output.Broken())
    {
      ghost var held, released, arrived := PG.PendingTokens(pmt.pending), pmt.released, PG.ArrivedTokens(pmt.arrived);
      var from := |pmt.completed|;
      var ok;
      ok, section := AskGateBeside(token, p, [token]);
      if !ok {
        r := PMTError;
      } else if section == null {
        r := PassThrough(token, p);
      } else {
        r := GiveToGate(token, from, held, arrived, released);
      }
    }

    /** The stream will complete the slot. */
    ghost method GiveToStream(token: nat, pid: nat)
      requires Working([token]) && token + 1 == |output.queue.all| && pid in streams
      modifies this`owner, this`streams
      ensures Valid() && streams == old(streams)[pid := old(streams)[pid] + [token]]
    {
      OwnedToStream(output.queue.all, owner, streams, PG.PendingTokens(pmt.pending), token, pid);
      owner := owner[token := Stream(pid)];
      streams := streams[pid := streams[pid] + [token]];
    }

    /** Reserve a slot for the next packet. */
    method Reserve() returns (token: nat)
      requires Valid()
      modifies output.queue, this`owner
      ensures Working([token]) && token == |old(output.queue.all)| && |output.queue.all| == token + 1
      ensures Kept(old(output.queue.all), output.queue.all)
    {
      ghost var before := output.queue.all;
      OwnedReserve(before, owner, streams, PG.PendingTokens(pmt.pending));
      ReserveKeeps(before);
      token := output.Reserve();
      owner := owner[token := Current];
      PlacedKept(before, output.queue.all, pmt.released);
    }

    /** When no stream has an open slot and no PMT is held, all slots have been written. */
    method FlushOutput() returns (r: Outcome)
      requires Valid() && forall pid :: pid in streams ==> streams[pid] == []
      modifies output.queue, output.writer
      ensures output.queue.all == old(output.queue.all)
      ensures r == Done || r == PMTUnresolved || (r == WriteFailed && output.Broken())
      ensures r == PMTUnresolved <==> pmt.pending != []
      ensures r == Done ==> output.writer.out == Values(output.queue.all)
      ensures r == Done ==> forall t: nat :: !Accepts(output.queue.all, t)
      ensures r == Done ==> Placed(output.queue.all, pmt.released) && |pmt.released| == |pmt.arrived|
    {
      var ok := pmt.Flush();
      if !ok {
        return PMTUnresolved;
      }
      assert PG.PendingTokens(pmt.pending) == [];
      NothingOpen(output.queue.all, owner, streams);
      var unresolved;
      ok, unresolved := output.Flush();
      if unresolved {
        assert false;
      }
      r := if ok then Done else WriteFailed;
    }
  }
}
