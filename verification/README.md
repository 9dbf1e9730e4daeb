# SAMPLE-AES remuxing of MPEG transport streams

A Dafny model of the encrypting remuxer of mpegenc: transport packets of many PIDs come in, the
elementary streams inside them are encrypted sample by sample, and transport packets in the same
order go out. The model follows one packet all the way: `ts/remuxer.go` reserves an output slot for it,
its media stream collects PES packets out of it, a codec transformer (H.264, AAC, AC-3, E-AC-3)
encrypts them, the packetizer makes transport packets again, the aligner gives those to the slots, and the
commit queue writes the slots in input order, while the PMT is held back until every stream has
said how its entry is to change.

The main results, from the outside in:

- `RemuxRun.Run`: any list of packets on any PIDs. Unless a write fails the run succeeds exactly if the
  input is sound (`RemuxResult.Sound`: what its PAT and PMT packets carry can be read, every stream's own
  input is fine, every PMT fits its packet when patched). Then it has written one entry for every input
  packet, in input order. `RemuxResult.Remuxed` says what is in it: the packet itself, or the patched
  PMT, or what its stream has made. Which stream gets a packet, which streams there are and which
  patches a PMT gets are functions of the input (`Routing.PlanOf`, `RemuxResult.PatchesFor`).
- `RemuxResult.PatchesExact`: every PMT is patched by every stream iff the first PMT has an entry or no stream
  is ever made. `LatePMT.LateEntriesRun` is a run in which a PMT goes out unpatched.
- `EndToEnd.Run`: one PID succeeds exactly if its input is fine and no PUSI packet is without
  payload. Then each slot comes back once and in order, a PES collector on the other side gets exactly the
  transformed PES packets, and every adaptation field is with the PES it came with.
- `EndToEnd.AvcEndToEnd`, `EndToEnd.AudioEndToEnd`: the receiver collects the same NAL units or frames, and
  exactly the bytes of them are encrypted that Sample-AES names: in NAL units of types 1 and 5 with at least 49
  bytes the blocks at 32 + 160k, in audio frames all whole blocks behind the clear lead. Decrypting them gives
  the elementary stream that went in.
- `PatchedPMTs.EntriesAnnounce`: each entry that a PMT of a sound run has for a stream names, byte by byte, the
  Sample-AES type of its format and the setup of the stream's own first frame.
- `AvcRun.RunAll`, `AudioRun.RunAll`, `PacketizerRun.Packetize`, `CommitQueues.RunAll`: each in-place
  state machine, fed in any pieces, does what a definition over the whole input says, and fails exactly
  when that definition does.

## Layout

| files | what they model |
|---|---|
| Bytes, Wrappers, Cipher | bytes, optional values, the CBC cryptor |
| AnnexB, Escaper, AvcCore, AvcStretches, AvcRefinement, AvcTheorems, AvcFeeds, AvcTransformer, AvcRun | the H.264 transformer: definition over a whole stream, byte machine, the class that works in place |
| AudioFrames, FrameHeaders, AudioStream, AudioTransformer, AudioRun | the three audio transformers |
| PesQueues, PesRuns, PesCollector, PesFraming, PesShape | PES packets: the transformers' queues, the collector, how cuts matter |
| AdaptationField, Packet, Carriage, Packetizer, PacketizerRun | transport packets and the packetizer |
| AlignerModel, Aligner, StreamModel, MediaTransformer, MediaStream, EndToEnd | one media stream from packets to packets |
| CommitQueue, Ownership, SlotRouter, Factory, Lanes, RemuxLog, Routing, RemuxResult, Remuxer, RemuxRun, PatchedPMT, LatePMT | the remuxer: slots, owners, what the input decides, all streams side by side |
| Crc, PsiCollector, PsiSections, PsiPackets, PmtGate | sections, their checksum, and the PMT transformer |
| BitLayout | packets, adaptation fields and PMT sections as bit strings |

What the standards lay down is stated in their terms, beside the arithmetic that the program does: bit
strings (`BitLayout`), bit fields of frame headers (`FrameHeaders`), byte positions and literal numbers.

Three idioms recur.

- A predicate marked "Sealed" has the form `forall k {:trigger UnfoldX(k)} :: UnfoldX(k) ==> ...`,
  where `UnfoldX` is a predicate that is always true. It means exactly what stands behind the arrow.
  The quantifier only keeps the solver from looking inside until a proof says `assert UnfoldX(0)`.
- A method whose name ends in "Beside" calls one stage and restates that the other stages are as they
  were, so that each frame argument is made once.
- `hide F, G;` at the head of a proof leaves the bodies of these functions out of it.

## Model

| member | source | states |
|---|---|---|
| AnnexB.SplitSound | ts/codecs/avc/transformer.go:136-222 | Whatever is accepted as an Annex B stream is its NAL units, zero runs, start codes and trailing zeros, and nothing else |
| AnnexB.SplitComplete | ts/codecs/avc/transformer.go:136-222 | The decomposition of a proper stream is unique |
| AvcRefinement.RunIsSplit | ts/codecs/avc/transformer.go:136-222 | The byte machine accepts exactly the proper streams and gives each byte the image the definition gives it |
| AvcTransformer.Transformer.PESPayload | ts/codecs/avc/transformer.go:136-222 | A payload call outside a PES is refused; inside one the call in place fails exactly when the byte machine does on the whole stream so far, with its error |
| AvcTransformer.Transformer.Flush | ts/codecs/avc/transformer.go:237-256 | Succeeds exactly when the stream so far is a proper one and no PES is open; then every PES has been sent with the images of its own bytes |
| AvcRun.RunAll | ts/codecs/avc/transformer.go:110-256 | For every cutting of a stream into PES packets and payload calls: success iff the headers are long enough and the joined stream is proper; downstream gets as many PES packets with length fields of 0, each holding the images of its own bytes, and in them as many NAL units, each sent as it has to be |
| AvcRun.OutputStream | ts/codecs/avc/transformer.go:258-415 | The joined output splits into as many NAL units with the same zeros around them, exactly those of types 1 and 5 with at least 49 bytes encrypted, and restoring them gives the joined input |
| AvcTheorems.EncryptedExactly | ts/codecs/avc/transformer.go:258-336 | Exactly the NAL units of types 1 and 5 with at least 49 bytes are encrypted, if encryption is on: the 16-byte blocks at 32 + 160k that end before the last byte, as one CBC chain from the IV, then escaped; every other unit is sent as it is |
| AvcTheorems.SealedExactly | ts/codecs/avc/transformer.go:280-336 | Byte by byte: which positions of an encrypted unit change, and what each block is the cipher of |
| AvcTheorems.FirstAndLastClear | ts/codecs/avc/transformer.go:258-369 | The NAL header and the last byte of a NAL unit stay clear |
| AvcTheorems.BoundariesSurvive | ts/codecs/avc/transformer.go:371-415 | Ciphertext never makes or breaks a start code: the output has as many units, each sent as it has to be, with the same zero runs and trailing zeros |
| AvcTheorems.StreamRecovered | ts/codecs/avc/transformer.go:258-415 | Unescaping and decrypting the units of the output gives the input stream |
| Escaper.EscapeClean | ts/codecs/avc/ebsp.go:13-51 | Escaped data holds no zero pair followed by 0, 1 or 2, whatever came before |
| Escaper.FirstZeroPair | ts/codecs/avc/ebsp.go:13-51 | Up to the first zero pair nothing changes; a 03 comes in front of the next byte exactly if that is at most 3; then the zeros are counted anew |
| Escaper.NoPairNoChange | ts/codecs/avc/ebsp.go:13-51 | Data without a zero pair is not changed |
| Escaper.UnescapeEscape | ts/codecs/avc/ebsp.go:13-51 | Escaping loses nothing |
| Escaper.EscapeLength | ts/codecs/avc/ebsp.go:13-51 | At most (n + run - 1) / 2 bytes are inserted into n, `run` being the zeros in front of them |
| Escaper.EbspEscaper.Append | ts/codecs/avc/ebsp.go:13-51 | The appender that jumps from zero pair to zero pair computes the bytewise escaping and its run |
| Cipher.CbcRoundTrip | sampleaes/encryptor.go:28-34 | CBC decryption undoes CBC encryption for whole blocks |
| Cipher.CbcBlocks | sampleaes/encryptor.go:28-34 | Each ciphertext block is the cipher of its plaintext and the ciphertext block before it |
| Cipher.XorBlockBitwise | sampleaes/encryptor.go:28-34 | The two are combined by exclusive or, bit by bit |
| Cipher.CBCEncryptor.CryptBlocks | sampleaes/encryptor.go:28-34 | Encrypts a range of an array in place and carries the chain on; refuses a partial block and then changes nothing |
| AudioFrames.CodecSound | ts/codecs/aac/transformer.go:88-145 | Each of the three header readers sees the same in any continuation of its data, in the frame alone, and after everything behind the clear lead has changed |
| AudioFrames.DataRateFits | ts/codecs/eac3/transformer.go:155-205 | The E-AC-3 data rate always fits its 13 bits, so the setup data carries it unchanged |
| FrameHeaders.AdtsExactly | ts/codecs/aac/transformer.go:88-145 | By bit fields: which ADTS headers are accepted, with which error the others are refused, the frame's length, its clear lead of 16 bytes behind a header of 7 or 9, and its AudioSpecificConfig |
| FrameHeaders.Ac3Exactly | ts/codecs/ac3/transformer.go:133-182 | The same for AC-3, with the frame length computed from the bit rate instead of the table |
| FrameHeaders.Eac3Exactly | ts/codecs/eac3/transformer.go:155-194 | The same for E-AC-3, and which frames start a chain |
| FrameHeaders.Eac3Setup | ts/codecs/eac3/transformer.go:196-205 | The EC3SpecificBox bits: data rate, fscod, bsid, acmod, lfeon |
| AudioStream.CallsCompose | ts/codecs/ac3/transformer.go:96-182 | Cutting the stream into payload calls changes nothing |
| AudioStream.ProcessIsSplit | ts/codecs/eac3/transformer.go:107-153 | The framing machine accepts exactly whole frames of which the first is independent, sends them sealed, and signals the setup of the first |
| AudioStream.IndependentGroup | ts/codecs/eac3/transformer.go:107-153 | The protected bytes of an independent frame and the dependent frames behind it are one CBC message from the IV |
| AudioStream.SealedAll | ts/codecs/eac3/transformer.go:107-153 | In each frame exactly the whole 16-byte blocks behind the clear lead are encrypted, as one CBC chain, which starts at the IV in an independent frame and goes on from the last ciphertext block before it in a dependent one |
| AudioStream.SealedExactly | ts/codecs/ac3/transformer.go:160-174 | The same for one frame; a frame with less than a block behind the lead is sent as it is |
| AudioTransformer.Transformer.PESPayload | ts/codecs/aac/transformer.go:51-145 | The call in place fails exactly when the framing machine does on the whole stream so far, with its error |
| AudioTransformer.Transformer.Flush | ts/codecs/ac3/transformer.go:114-131 | Succeeds exactly when the stream consists of whole frames and no PES is open; signals nothing |
| AudioRun.RunAll | ts/codecs/aac/transformer.go:39-186 | For every cutting: success iff the joined stream consists of whole frames; downstream gets the same PES packets with the same headers and lengths, and in them as many frames, of which exactly the whole blocks behind the clear lead are encrypted |
| AudioRun.OutputFrames | ts/codecs/ac3/transformer.go:84-223 | The output consists of as many frames with the same headers, each encrypted exactly as it has to be, and opening them gives the input |
| PesQueues.PESQueue.AllDelivered | ts/codecs/avc/transformer.go:382-433 | When nothing is owed any more each input PES has come out with its own header and the images of its own bytes |
| PesCollector.PESCollector.ConsumePacket | ts/packets/pes.go:25-86 | The slice-based collector does what a bytewise one does, errors included |
| PesFraming.CutExactly | ts/packets/pes.go:25-86 | Two calls do what one call does, iff the first does not already complete a bounded PES with more bytes to come |
| PesFraming.HeaderEnds | ts/packets/pes.go:122-168 | Nine bytes, as many as the ninth says, and the rest is payload: what comes of them for every value of the length field, errors included |
| PesFraming.EndsTooEarly | ts/packets/pes.go:108-120 | The input must not end within a header or before the announced payload is there |
| PesFraming.PrefixNeeded | ts/packets/pes.go:122-150 | Anything but the prefix 00 00 01 is refused |
| PesFraming.CutCounterexample | ts/packets/pes.go:25-86 | An input on which they differ |
| PesFraming.CutsDoNotMatter | ts/packets/pes.go:25-86 | If the uncut input is accepted, every cutting of it is, with the same PES packets |
| PesFraming.CollectorRecovers | ts/packets/pes.go:25-120 | Well-formed PES packets in any fragments are exactly what the collector delivers |
| PesShapes.ReceivedWhole | ts/packets/pes.go:88-168 | Every PES that a flushed collector has delivered agrees with its own length field |
| AdaptationField.FieldBack | internal/go-astits/packet.go:293-459 | A field that fits is read back as it was written, clocks, splices and extensions included |
| AdaptationField.ParsedNoWrap | internal/go-astits/packet.go:531-550 | The 8-bit length of a field that was parsed never wraps, however its own length byte lies |
| AdaptationField.HasData | internal/go-astits/packet.go:103-114 | A field says something exactly if it differs from one that holds nothing but stuffing |
| AdaptationField.StripKeeps | internal/go-astits/packet.go:116-152 | Dropping the stuffing keeps all else |
| BitLayout.FieldLayout | internal/go-astits/packet.go:552-673 | The bytes written for a field are the bit string of the standard: length, eight flags, clocks, countdown, private data, extension with its three parts, stuffing |
| AdaptationField.WithSizeExact | internal/go-astits/packet.go:154-194 | Stuffing hits every legal size exactly and leaves what the field says alone |
| AdaptationField.StuffingFieldExact | internal/go-astits/packet.go:196-211 | A stuffing field of n bytes exists iff 1 <= n <= 184, and takes n bytes |
| Packets.PacketBack | internal/go-astits/packet.go:461-520 | A packet comes back as it was, but for the filling, which is taken for payload |
| BitLayout.PacketLayout | internal/go-astits/packet.go:461-520 | A full packet is 188 bytes: 47, the header's bit string, the field, the payload |
| Packets.PacketRoundTrip | internal/go-astits/packet.go:213-291 | So a packet with payload survives iff it was 188 bytes long without filling |
| Packetizer.TSPacketizer.BeginPES | ts/internal/mux/ts_packetizer.go:60-90 | Fails exactly on an open PES or a malformed header; begins a new unit with the waiting field |
| Packetizer.TSPacketizer.FlushPayloadPacket | ts/internal/mux/ts_packetizer.go:269-313 | Its two errors cannot occur |
| Packetizer.TSPacketizer.SetNextPacketAdaptationField | ts/internal/mux/ts_packetizer.go:188-229 | Accepts a field exactly if it leaves room for a byte, and loses none that waits already; one that holds stuffing only is dropped |
| PacketizerRun.Packetize | ts/internal/mux/ts_packetizer.go:54-345 | Every list of calls, however the packets are taken: success iff every call is in place and fits and no PES is left open; then the packets carry exactly those PES bytes and fields, with running counters, each a full packet |
| PacketizerRun.CollectorGetsUnits | ts/internal/mux/ts_packetizer.go:92-177 | A PES collector gets exactly the PES packets that were written |
| PacketizerRun.WireRoundTrip | ts/internal/mux/ts_packetizer.go:269-345 | Each packet takes exactly 188 bytes with nothing filled up and parses back to itself |
| PacketizerRun.FieldsConserved | ts/internal/mux/ts_packetizer.go:188-250 | Every field that holds anything but stuffing is on exactly one packet, alone, in call order |
| PacketizerRun.FieldStartsUnit | ts/internal/mux/ts_packetizer.go:188-229 | A field given between two PES packets is on the packet that starts the second |
| Aligner.OutputAligner.RegisterInputPacket | ts/output.go:62-103 | What is registered, and that the slot is open from then on; refused is exactly a field that cannot be sent, unless the packet starts a PES or its field has to wait for one that has not begun |
| Aligner.OutputAligner.PESHeader | ts/output.go:105-142 | Ends the program exactly if no metadata waits; otherwise fails exactly if a PES is open, the header is malformed or a field cannot be sent |
| Aligner.OutputAligner.Align | ts/output.go:155-193 | Hands back the slots that matching packets to tokens one by one gives, surplus on the last, with the last one kept back |
| Aligner.AlignedExactly | ts/output.go:155-193 | Packet i is for the i-th open token, the last token that gets one gets all that are left, the newest slot waits, tokens without a packet stay open |
| Aligner.OutputAligner.Flush | ts/output.go:195-213 | Succeeds exactly when no PES is open; then every registered slot has come back once, in order, and no packet is lost |
| AlignerModel.DeliveredFields | ts/output.go:31-42 | When all PES packets have come out each field of the input that holds anything but stuffing is with its own PES, in order, and each PES starts with its own |
| StreamModel.MetadataForEach | ts/output.go:105-109 | Each PES that begins finds its metadata iff every PUSI packet has a payload |
| StreamModel.StartsBegin | ts/output.go:75-83 | The PES packets that have begun are those whose start carried payload and one for each PUSI packet without |
| MediaStreams.MediaStream.OpenWhileActive | ts/media_stream.go:35-68 | While the collector is inside a PES and none waits, that PES is open downstream, so no field is given outside one |
| MediaStreams.MediaStream.Consume | ts/media_stream.go:41-68 | A packet of an acceptable input is taken unless a PUSI packet had no payload; after a call that succeeds the input is acceptable iff the fields that still wait for their PES can be sent; the slots handed back and those still open are those open before and the new one |
| MediaStreams.MediaStream.Flush | ts/media_stream.go:70-78 | Succeeds iff the input was fine and every PUSI packet had a payload; then all slots have come back in order, they hold the transform of the input, and nothing is signalled |
| MediaStreams.SetupForStays | ts/codecs/ac3/transformer.go:133-182 | What a stream has signalled to the PMT never changes again |
| EndToEnd.Run | ts/media_stream.go:41-78 | One PID, any packets: success iff the input is fine and every PUSI packet has a payload; with a fine input the program ends in PESHeader iff one has none; slots and output as for Flush |
| EndToEnd.EmptyStartPanics | ts/output.go:105-109 | A run on two packets that ends the program there |
| EndToEnd.EmptyStartIsFine | ts/media_stream.go:41-68 | Collector, transformer and remuxer find nothing wrong with those two packets |
| EndToEnd.ReceiverGetsTransformed | ts/packets/pes.go:25-120 | Collecting the output gives exactly the transformed PES packets |
| EndToEnd.AvcEndToEnd | ts/codecs/avc/transformer.go:110-415 | The receiver's stream splits into as many NAL units between the same start codes, exactly those of types 1 and 5 with at least 49 bytes encrypted; the PES headers differ in the length field only; restoring gives the stream that went in |
| EndToEnd.AudioEndToEnd | ts/codecs/aac/transformer.go:39-186 | The receiver's PES packets have the headers and lengths of the input's, in each frame exactly the whole blocks behind the clear lead are encrypted, and opening the frames gives the stream that went in |
| EndToEnd.OnTheWire | internal/go-astits/packet.go:461-520 | If the input packets were parsed from 188 bytes, every output packet takes exactly 188 bytes and parses back to itself |
| EndToEnd.CountersGoOn | ts/output.go:62-103 | The continuity counters go on from that of the first input packet |
| CommitQueues.RunAll | internal/utils/commit_queue.go:19-102 | Any order of calls with any writes failing: what is written is a prefix of the complete slots in reservation order, each once, and all of them when the last drain succeeds |
| CommitQueues.CommitsCommute | internal/utils/commit_queue.go:53-64 | Commits of different tokens may come in either order |
| CommitQueues.CommitQueue.Commit | internal/utils/commit_queue.go:53-64 | Refuses exactly the stale, unknown and repeated tokens, and then changes nothing |
| CommitQueues.CommitQueue.Drain | internal/utils/commit_queue.go:66-80 | Writes the complete slots at the front; stops exactly at the first that is not complete or the first failure |
| CommitQueues.OutputGrows | internal/utils/commit_queue.go:19-80 | A slot that is complete stays as it is |
| Ownership.NothingOpen | ts/output.go:267-275 | When no owner holds a slot every slot is complete |
| Ownership.FlushIsDetermined | ts/remuxer.go:91-115 | What a flush leaves follows from what the streams hand back, whatever their order |
| Ownership.OutputAssembler.CommitAll | ts/remuxer.go:107-115 | The slots that an owner hands back are its oldest, so none is refused; all of them hold what was handed back and nothing else has changed |
| StreamFactory.PatchedLoopOk | ts/codecs/ac3/pmt.go:10-38 | A patched entry can be written if the old one leaves 30 bytes of room |
| StreamFactory.PatchAnnounces | ts/codecs/aac/pmt.go:8-34 | By stream type, byte by byte: the new type DB, CF, C1 or C2, the old descriptors, the private data indicator, and for audio the registration descriptor with format and setup |
| StreamFactory.SupportedTypes | ts/internal/transformer/factory.go:18-42 | Which stream types are supported, and which transformer with which header reader each of them gets |
| Lanes.LanesConsume | ts/remuxer.go:66-77 | A packet for one stream leaves all other streams as they are |
| Lanes.LanesFlush | ts/remuxer.go:91-100 | Flushing one stream succeeds iff its own input was fine, and leaves the others as they are |
| SlotRouters.SlotRouter.TakePMT | ts/remuxer.go:58-70 | The gate keeps the slot of a PMT and passes every other packet of its PID on; what it releases is complete |
| SlotRouters.SlotRouter.FlushOutput | ts/remuxer.go:101-104 | With no stream slot open it reports a PMT as unresolved exactly if one is held, leaves no slot unresolved, and on success every slot has been written |
| RemuxLog.TokensExact | ts/remuxer.go:47-88 | A slot is among those of an owner iff that is where its packet went |
| RemuxLog.StreamIsDone | ts/remuxer.go:91-100 | The slots of a stream, gathered in order, hold what the stream owes for exactly the packets that went to it |
| Routing.KindsExact | ts/remuxer.go:123-132 | A PID gets a stream iff the PMT has a supported entry for it, and the first such entry decides its type |
| Routing.StreamsOrigin | ts/remuxer.go:66-73 | Streams exist exactly from the first PMT with entries on, and they are the streams of that PMT, however many PMTs without entries came before |
| Routing.AwaitedAreMade | ts/pmt_transformer.go:75-95 | The PMT waits for all streams if the first PMT has entries, and otherwise for none |
| Routing.GateHasArrived | ts/remuxer.go:58-65 | The slots kept for PMTs are those of the packets in which a PMT was found, in order |
| Routing.PlanPrefix | ts/remuxer.go:42-89 | More input never changes the way of an earlier packet, the PMTs found, or the streams once there are any |
| Routing.WayExactly | ts/remuxer.go:42-89 | PID 0 is passed on; what comes on the PID of the last program goes to the PMT transformer if a PMT is found in it; a packet of a made stream goes there if it starts a PES, has no payload, or a PES is under way; all else is passed on |
| RemuxResult.PatchesExact | ts/pmt_transformer.go:75-95 | Every stream patches every PMT iff the first PMT has an entry or no stream is ever made; under the same condition every stream is awaited |
| PatchedPMTs.EntriesAnnounce | ts/pmt_transformer.go:97-169 | In a sound run each patched entry announces the Sample-AES format of its type with the setup of the stream's own first frame, and an entry without a patch stays as it came |
| PatchedPMTs.SetupIsFirst | ts/codecs/ac3/transformer.go:133-182 | What an audio stream signals is the setup in the header of its first frame |
| RemuxResult.SoundBefore | ts/remuxer.go:42-89 | If a whole input is sound nothing is wrong with any beginning of it, so no call fails early |
| RemuxResult.AllDone | ts/remuxer.go:91-105 | When every stream and every PMT is done the slots hold what a run has to write, and the input was sound |
| LatePMT.LateEntries | ts/remuxer.go:66-73 | A sound input whose first PMT has no entries: its H.264 stream is made, and the PMT that names it gets no patch |
| LatePMT.LateEntriesRun | ts/pmt_transformer.go:75-84 | The run on that input succeeds and writes that PMT as it came |
| Remuxer.Remuxer.Consume | ts/remuxer.go:42-89 | Every call keeps the whole invariant and records its packet; a PAT error iff the PAT is bad; apart from a failing write any error means that the input up to here is not sound; never unresolved slots |
| Remuxer.Remuxer.MakeStreams | ts/remuxer.go:118-149 | The first PMT with entries brings exactly one stream for each PID with a supported entry; those that need no data signal at once; it fails only if a PMT that is now complete does not fit |
| Remuxer.Remuxer.Flush | ts/remuxer.go:91-105 | In any order of the streams: apart from a failing write any error means that the input was not sound, and success that it was; then only the slots handed back have changed and the output is complete |
| RemuxRun.Run | ts/remuxer.go:31-105 | Any packets, then the end: if no write fails, success iff the input is sound; then one entry is written for each packet, in input order, holding the packet, the PMT with the patches that the input decides (`PatchedPMTs.EntriesAnnounce` says what they write), or what its stream has made |
| RemuxRun.RunsAgree | ts/remuxer.go:42-105 | Two runs over the same input agree on every slot that is not a stream's, and a receiver gets the same PES packets and the same fields of every stream |
| RemuxRun.FlushOrder | ts/remuxer.go:91-105 | Two flushes in which each stream hands back the same write the same, in whatever order; nothing is asked of the PMT |
| PmtGate.PMTTransformer.Consume | ts/pmt_transformer.go:58-95 | With a PMT it fails exactly if some PMT that is to be released does not fit its packet when patched; every arrival is released once or held |
| PmtGate.PMTTransformer.Signal | ts/pmt_transformer.go:97-102 | Sets one patch, and fails exactly as above |
| PmtGate.PMTTransformer.CompleteReady | ts/pmt_transformer.go:135-169 | Releases nothing while a stream has not signalled, otherwise everything in arrival order with the same patches; fails iff one does not fit |
| PmtGate.PMTTransformer.TokensKept | ts/pmt_transformer.go:58-95 | Every PMT that has arrived was released or is held, in arrival order |
| PmtGate.NeverReleased | ts/pmt_transformer.go:135-169 | When all have been released none was a misfit |
| PmtGate.PatchedArrives | ts/internal/packets/pmt.go:21-49 | A receiver of a patched PMT packet finds the patched section |
| PmtGate.PatchedExactly | ts/pmt_transformer.go:135-169 | Patching changes the entries that have a patch and, if there is any, the version by one modulo 32; all else stays |
| PmtGate.CollectedExactly | ts/pmt_transformer.go:104-133 | What comes of every packet on the PMT's PID: nothing, an error, or the current PMT of program 1 |
| PsiPackets.PacketizeSucceeds | internal/go-astits/data_psi.go:129-172 | The section fits beside the field's data, unless one byte would be left for a field that is there but empty |
| PsiPackets.OneByteLeft | internal/go-astits/data_psi.go:129-172 | The input for that exception: a PMT of 182 bytes cannot be packetized where one of 183 bytes can; both are sections that the parser accepts |
| PsiPackets.PacketizeExact | internal/go-astits/data_psi.go:129-172 | A full packet stays full, its field says the same, its header stays, its payload is a pointer field of 0, the section, and FF |
| PsiSections.SectionBack | internal/go-astits/data_psi.go:101-127 | The parser accepts what the writer writes and returns the same PMT, lengths computed again |
| BitLayout.SectionLayout | internal/go-astits/data_psi.go:608-690 | The bytes written for a PMT section are the bit string of the standard, with its descriptors and streams; the length counts what follows it, and the last four bytes are the checksum |
| PsiSections.ParsedBack | internal/go-astits/data_psi.go:101-127 | Whatever PMT was parsed can be written and is read back as it was, with its lengths computed anew; from then on it does not change any more |
| PsiSections.KnownRewritten | internal/go-astits/descriptor.go:1831-2260 | Descriptors that are decoded are written with the same fields; reserved bits become ones, bytes behind the last field are lost |
| PsiSections.FlaggedRewritten | internal/go-astits/descriptor.go:1831-2034 | The same for AC-3 and enhanced AC-3, whose flags announce a byte each |
| PsiSections.TagKinds | internal/go-astits/descriptor.go:1625-1814 | Which tags are read as what |
| PsiSections.DamageNoticed | internal/go-astits/data_psi.go:205-264 | Damage within four neighbouring bytes behind the length and before the CRC is always noticed |
| PsiCollector.PiecesComeBack | ts/internal/packets/psi.go:13-76 | A run of sections cut into payloads anywhere comes back exactly, and nothing is kept |
| PsiCollector.SectionIs | ts/internal/packets/psi.go:46-76 | A section: not FF, at most 1024 bytes, as many as its 12 bits of length say |
| PsiCollector.RunComesBack | ts/internal/packets/psi.go:13-76 | So they do if the first payload has a pointer field that skips any number of bytes in front of them |
| PsiCollector.PointerAtBoundary | ts/internal/packets/psi.go:13-44 | A pointer field in the middle of a run loses nothing |
| Crc.GenerateTable | internal/go-astits/internal/cmd/crc32_table/main.go:27-46 | The generated table holds, for each byte, eight shifts of the register |
| Crc.UpdateIsShift | internal/go-astits/crc32.go:13-18 | A table step is eight shifts |
| Crc.ComputeCRC32 | internal/go-astits/crc32.go:7-18 | The table-driven loop computes the bitwise checksum |
| Crc.Residue | internal/go-astits/crc32.go:7-18 | A message followed by its checksum leaves the register empty |
| Crc.StartsWithOnes | internal/go-astits/crc32.go:7-18 | The register starts with ones: the same comes of an empty one if the first four bytes are inverted |
| BitLayout.Generator | internal/go-astits/internal/cmd/crc32_table/main.go:27-46 | The generator polynomial, by its exponents |
| Crc.ChangeShows | internal/go-astits/crc32.go:7-18 | A change within four neighbouring bytes always changes the checksum |

## Findings

Properties that the code does not have, each with an input and the exact condition.

- Cutting a PES (`PesFraming.CutExactly`, `PesFraming.CutCounterexample`; ts/packets/pes.go:25-86). Bytes behind a
  bounded PES are refused if they come in the same packet and ignored if they come in a later one. Two calls do
  what one call does unless the collector is inactive between them and more bytes follow.
- A PUSI packet without payload (`StreamModel.MetadataForEach`, `EndToEnd.Run`, `EndToEnd.EmptyStartPanics`;
  ts/output.go:105-109). Such a packet starts a PES in the collector but leaves no metadata in the aligner, and
  PESHeader takes the first element of an empty slice as soon as the header arrives. With an otherwise fine input
  this happens exactly if some PUSI packet has no payload.
- A PMT packet (`PsiPackets.PacketizeSucceeds`, `PsiPackets.OneByteLeft`; internal/go-astits/data_psi.go:129-172). If the
  section leaves exactly one byte and the packet has an adaptation field without data, packetizing fails, although a
  section that is one byte longer fits.
- A first PMT without entries (`RemuxResult.PatchesExact`, `LatePMT.LateEntries`, `LatePMT.LateEntriesRun`;
  ts/remuxer.go:66-73, ts/pmt_transformer.go:75-84). The remuxer makes its streams from the first PMT that has entries,
  because the list of a PMT without any is nil. The PMT transformer decides with the first PMT of all which PIDs it
  waits for, and then waits for none. So a PMT with an H.264 entry that comes second goes out unpatched although the
  stream is encrypted, and later ones go out with the patches that happen to be there when they come. Every PMT
  gets the patch of every stream iff the first PMT has an entry or no stream is ever made.

## Left out

- AES itself, reading, writing, contexts and the command line: `enc` and `dec` of `Cipher.Keys` stand for any block function and its inverse, `fails` for a writer that may fail at any write.
- What PAT parsing finds (ts/internal/packets/pat.go): an argument of each `Remuxer.Remuxer.Consume`.
- The state after an error: the source does not go on after one, and the contracts say nothing of it, except where a retry is meant (the commit queue).
- A slot is written as a whole by the model's writer; ts/output.go:249-265 writes its packets one by one, so "once" is per slot when a write fails in the middle.
- Calls of a downstream handler inside an upstream call: they are handed on when the upstream call returns, in the same order.
- Order of map iteration in ts/remuxer.go:118-149: streams are made in the order of the PMT entries. The order in Flush is left open.
- FlushOrder: the slots that a stream hands back are taken to be the same in both orders; that no stream touches another's objects is in `Lanes.LanesFlush`, but a contract cannot say that a method is deterministic.
- RunsAgree: of a stream's slots it says what a receiver gets of all of them together, not which packet is in which slot, and not on which packet of a PES a field is. That would need the packetizer, the aligner and the transformers as functions of all their calls.
- RemuxRun.Run: the end of the program in PESHeader counts as a stream error here; `EndToEnd.Run` tells the two apart. A stream error never comes with a sound input.
- PmtGate.PMTTransformer.Consume: a PMT with one of sixteen descriptor tags counts as malformed where the source goes on; which ones is said at Descriptors below.
- PatchedLoopOk: assumes descriptor loops below 4096 - 30 bytes and setup data of at most 10 bytes, which is what the codecs produce.
- The three audio transformers share one class, with the header reader as a parameter.
- uint64 tokens are unbounded; continuity counters, 8-bit field lengths, 33-bit clocks, 12- and 13-bit section numbers are kept to their widths. DescriptorsLength does not wrap at 16 bits, which `LoopOk` rules out.
- Descriptors (internal/go-astits/descriptor.go): the registration, private data indicator, user defined and unknown ones are modelled in full, and eight known ones as the bytes that are written back (data stream alignment, ISO 639 language, maximum bitrate, AVC video, stream identifier, private data specifier, AC-3, enhanced AC-3). The model refuses a PMT with one of the other sixteen tags that have a parser (`PsiSections.OtherKnownTag`: those of service information, teletext, subtitles and extensions), where the source goes on.
- ParsedBack: assumes a section that is not empty and descriptor loops below 4096 bytes; longer ones do not fit their length field.
- Sections other than the PMT are not parsed further than their table id.
- PiecesComeBack: a run of sections without stuffing in between.
- The demuxer, the muxer's PAT and PMT generation and the packet pools of internal/go-astits: the remuxer does not use them.
- Parsed `Has...` flags and lengths of adaptation fields: a part that is there is `Some`, and lengths are computed.
- The CRC register is a sequence of 32 bits instead of a machine word.
