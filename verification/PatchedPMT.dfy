/** What a player finds in a PMT that the remuxer has written: the entries by their bytes, with the
  * setup that the stream's own first frame gives.
  */
module PatchedPMTs {
  import opened Bytes
  import opened Cipher
  import opened Wrappers
  import AF = AudioFrames
  import AS = AudioStream
  import opened Packets
  import PG = PmtGate
  import opened PsiSections
  import opened Ownership
  import opened PesRuns
  import opened PesShapes
  import opened StreamModel
  import opened MediaStreams
  import opened StreamFactory
  import opened RemuxLog
  import opened Routing
  import opened RemuxResult

  /** The header of the first frame of an audio stream. */
  ghost function FirstHeader(codec: AF.Codec, packets: seq<Packet>): AF.Read {
    if Received(packets).Ok? then AF.ReadHeader(codec, Payloads(Received(packets).state.out)) else AF.Short
  }

  /** The setup data of a stream: none for H.264, otherwise what the header of its first frame gives. */
  ghost function FirstSetup(k: Kind, packets: seq<Packet>): seq<byte> {
    if k.AudioStream? && FirstHeader(k.codec, packets).Good? then FirstHeader(k.codec, packets).header.setup else []
  }

  lemma SetupIsShort(k: Kind, packets: seq<Packet>)
    ensures |FirstSetup(k, packets)| <= 10
  {
    if k.AudioStream? && FirstHeader(k.codec, packets).Good? {
      SetupLength(k.codec, Payloads(Received(packets).state.out));
    }
  }

  lemma SetupLength(codec: AF.Codec, b: seq<byte>)
    requires AF.ReadHeader(codec, b).Good?
    ensures |AF.ReadHeader(codec, b).header.setup| <= 10
  {
    hide AF.SetupAAC, AF.SetupEAC3, AF.FrameSizeWords;
  }

  /** What an audio stream has signalled is the setup of its first frame. */
  lemma SetupIsFirst(codec: AF.Codec, keys: Keys, packets: seq<Packet>)
    requires var c := CodecFor(AudioStream(codec, keys)); Fine(c, packets) && SetupFor(c, packets).Some?
    ensures FirstHeader(codec, packets).Good?
    ensures SetupFor(CodecFor(AudioStream(codec, keys)), packets) == Some(FirstHeader(codec, packets).header.setup)
  {
    hide Payloads, AF.ReadHeader;
    var read := AF.ReaderOf(codec);
    var data := Payloads(Received(packets).state.out);
    FinishGrows(Collect(packets).state);
    AS.ProcessIsSplit(read, keys, data);
    if data == [] {
      AF.ReaderEmpty(read);
    } else {
      AF.ReaderInFrame(read, data);
    }
  }

  /** A patch in force is what the whole input of the stream gives. */
  lemma PatchIsFinal(inputs: seq<Packet>, heard: seq<PATResult>, q: Params, k: nat, pid: nat)
    requires Sound(inputs, heard, q) && k < |PlanOf(inputs, heard, q).arrived|
    requires pid in PatchesFor(inputs, heard, q, k)
    ensures var plan := PlanOf(inputs, heard, q);
      && pid in Kinds(plan) && PatchesFor(inputs, heard, q, k)[pid].Some?
      && PatchesFor(inputs, heard, q, k)[pid] ==
           PatchAfter(Kinds(plan)[pid], PacketsOf(inputs, plan.route, Stream(pid)))
  {
    hide PlanOf, PatchAfter, StreamFine, PG.Outgoing;
    var b := PlanOf(inputs, heard, q);
    assert Fits(b.arrived[k], PatchesFor(inputs, heard, q, k));
    if !FirstHasEntries(b.arrived) {
      GateHasArrived(inputs, heard, q);
      var t := b.arrived[k].token;
      var a := PlanOf(inputs[..t], heard[..t], q);
      PlanPrefix(inputs, heard, q, t);
      assert UnfoldExtends(0);
      assert a.route == b.route[..t];
      assert pid in Kinds(a) && a.streams.Some?;
      PacketsPrefix(inputs, b.route, Stream(pid), t);
      StreamBefore(Kinds(b)[pid], PacketsOf(inputs[..t], a.route, Stream(pid)),
                   PacketsOf(inputs, b.route, Stream(pid)));
    }
  }

  /** In a sound run each entry of a PMT that has a patch announces the stream as Sample-AES, with
    * the setup of its own first frame, if it names the type that the stream was made for. An
    * entry without a patch goes out as it came. */
  lemma EntriesAnnounce(inputs: seq<Packet>, heard: seq<PATResult>, q: Params, k: nat, i: nat)
    requires Sound(inputs, heard, q) && k < |PlanOf(inputs, heard, q).arrived|
    requires i < |PlanOf(inputs, heard, q).arrived[k].syntax.pmt.streams|
    ensures PG.AllSignalled(PatchesFor(inputs, heard, q, k))
    ensures var plan := PlanOf(inputs, heard, q);
      var a, patches := plan.arrived[k], PatchesFor(inputs, heard, q, k);
      var e, sent := a.syntax.pmt.streams[i], PG.PatchSyntax(a.syntax, patches).pmt.streams;
      && |sent| == |a.syntax.pmt.streams|
      && (e.pid !in patches ==> sent[i] == e)
      && (e.pid in patches && PG.Supported(e.streamType, q.inputEncrypted) ==>
            && e.pid in Kinds(plan)
            && var kind, packets := Kinds(plan)[e.pid], PacketsOf(inputs, plan.route, Stream(e.pid));
            |FirstSetup(kind, packets)| <= 10 &&
            (kind == KindFor(e.streamType, q.keys) ==> Announces(e, sent[i], FirstSetup(kind, packets))))
  {
    hide PlanOf, PatchAfter, StreamFine, PatchesFor, PG.Outgoing, FirstSetup, Announces, KindFor, PatchFor;
    var plan := PlanOf(inputs, heard, q);
    var a, patches := plan.arrived[k], PatchesFor(inputs, heard, q, k);
    assert Fits(a, patches);
    PG.PatchedExactly(a.syntax, patches);
    var e := a.syntax.pmt.streams[i];
    if e.pid in patches && PG.Supported(e.streamType, q.inputEncrypted) {
      PatchIsFinal(inputs, heard, q, k, e.pid);
      var kind, packets := Kinds(plan)[e.pid], PacketsOf(inputs, plan.route, Stream(e.pid));
      SetupIsShort(kind, packets);
      if kind == KindFor(e.streamType, q.keys) {
        PatchSays(e, q.keys, packets, patches[e.pid].value);
      }
    }
  }

  /** The patch of a stream, applied to an entry of its own type. */
  lemma PatchSays(e: ElementaryStream, keys: Keys, packets: seq<Packet>, patch: PG.Patch)
    requires e.streamType in {0x1B, 0x0F, 0x81, 0x87} && StreamFine(KindFor(e.streamType, keys), packets)
    requires PatchAfter(KindFor(e.streamType, keys), packets) == Some(patch)
    ensures |FirstSetup(KindFor(e.streamType, keys), packets)| <= 10
    ensures Announces(e, patch(e), FirstSetup(KindFor(e.streamType, keys), packets))
  {
    hide Announces, PatchFor, Fine;
    var kind := KindFor(e.streamType, keys);
    SetupIsShort(kind, packets);
    if kind.AudioStream? {
      SetupIsFirst(kind.codec, keys, packets);
    }
    PatchAnnounces(e, keys, FirstSetup(kind, packets));
  }
}
