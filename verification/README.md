# FFmpeg front ends: verified models

A Dafny model of the stateful parts of the FFmpeg 3.3.7 front ends: the transcoder's output
path (`ffmpeg.c`), the player's queues, decoder thread, clock and audio callback (`ffplay.c`),
the buffering in front of filter graphs (`ffmpeg.c`, `ffmpeg_filter.c`), the command line
splitter (`cmdutils.c`) and the ffserver configuration reader (`ffserver_config.c`).
`dafny verify dfyconfig.toml` checks everything.

Each component is one module in one file. What the program updates in place is a class whose
methods follow the C code; every method is proved equal to a specification function on values,
and the lemmas are about those functions, over whole runs. Threads are modelled as interleavings
of atomic steps with a program counter per thread; a step reads or changes shared memory at most
once, or is one critical section. The classes beside the two interleavings (`FrameQueue.Queue`,
`DecoderProtocol.Decoder`, on top of `PacketQueue.Queue`) are the same steps on real fields.

| file | what it models |
|---|---|
| `OutputPath.dfy` | `output_packet`: the index loop over the bitstream filters |
| `Mux.dfy` | `write_packet`, the muxing queue and its drain, timestamp repair |
| `VideoSync.dfy` | `do_video_out`: rate decision, counters, encoding loop |
| `LoopInput.dfy` | `seek_to_start`, `duration_max`, the timestamps of `process_input` |
| `PacketQueue.dfy` | the packet queue: a linked list with counters and serials |
| `DecoderProtocol.dfy` | seeks, stream open and close, and the decoder thread, interleaved |
| `FrameQueue.dfy` | the frame ring between one writer and one reader, interleaved |
| `DecoderThread.dfy` | both at once: a decoder thread between its two queues, and the join that ends it |
| `AudioCallback.dfy` | `sdl_audio_callback` |
| `Clock.dfy` | the external clock and its speed control |
| `FilterInputs.dfy` | frames waiting for a filter graph, its rebuilds, end of file |
| `SplitCommandline.dfy` | `split_commandline` against a declarative grouping |
| `ConfigReader.dfy` | the block structure of an ffserver configuration |
| `Common.dfy` | what they share: optional values, minimum and maximum |

Oracles: what a bitstream filter, decoder, demuxer, muxer or option table answers is a parameter
(a function of the packets so far, a list of answers, or a definition list), and every result
holds for all of them. Integers are unbounded and arithmetic on times is over the reals;
`lrint` rounds halves to even.

## Results that differ from what one might expect

- *Timestamps across a gap* (`Mux.OrderedExactlyWhenGapsAre`, `Mux.GapBreaksOrder`): a packet
  without dts switches the monotonicity check off for the next one. A whole run leaves in order
  exactly when the first packet after each gap brings stamps past the dts that left before it.
- *Drift after a dropped initial gap* (`VideoSync.InitialGapDriftExactly`,
  `VideoSync.InitialGapDriftReached`): where VSCFR drops an initial gap the drift is what the
  roundings of the picture's start and length take away together, so the half-tick bound holds
  exactly when that sum is at most one half. One full tick bounds it; as the caller keeps starts
  off the midpoints, 1 - 1/131072 is the most, and is reached.
- *Picture accounting* (`VideoSync.ConservedExactly`, `VideoSync.LateFirstPictureIsMisbooked`):
  the counters come out right exactly for the calls that satisfy `BooksRight`; a late first
  picture whose encodings are all booked on a previous picture that does not exist is not one,
  nor is one with a negative number of encodings while an earlier picture is still pending.
- *Finished without a drain packet* (`DecoderProtocol.FinishedMeansDrained`,
  `DecoderProtocol.FilterEndFinishesUndrained`): a filter graph that ends by itself, as `trim` does,
  also sets `finished`, so a stream can be finished although its codec was never drained.
- *Formats* (`FilterInputs.FramesFitExactly`, `FilterInputs.OutOfDateExactly`): an input remembers
  the format of a frame before the old graph is emptied. If an error comes out of that, the next
  frame of the new format is pushed into a buffer source made for the old one. Frames that wait in
  a queue are likewise pushed into a source made for the last of their formats. In all other runs,
  and only in them, every frame has the format its source was made for.
- *Ring size* (`FrameQueue.DeadlockExactlyWhenOneKeptSlot`): writer and reader can sleep together
  exactly when the ring has one slot and keeps its last frame.
- *Mixed sound* (`AudioCallback.ChunkingExactly`, `AudioCallback.OddCutIsHeard`): below full volume
  the player mixes 16-bit samples, so how the device cuts its requests is never heard exactly when
  no cut but the last falls inside a sample. At full volume, or muted, any cuts will do.
- *Loop length* (`LoopInput.DurationExactly`): a contributing stream without packets has a huge
  negative length. It is looked past except where no stream has any length and it comes last; the
  duration is the multiple of the loop length exactly in all other files.
- *Looped streams* (`LoopInput.NoOverlapExactly`, `LoopInput.VideoBesideAudioOverlaps`): a stream
  that does not contribute to the loop length (video beside audio) overlaps itself exactly when it
  spans at least that length.
- *Block names* (`ConfigReader.NoNameErrorExactlyWhenApart`,
  `ConfigReader.StreamAndFeedShareAName`): the check for a feed's name walks the list of all blocks
  from the first feed on, so a feed may take the name of a stream that stands before every feed; a
  redirect's name is not checked at all. No name error is reported exactly when all blocks that
  share a name are of these two kinds.

## Model

| member | source | states |
|---|---|---|
| OutputPath.Path.OutputPacket | ffmpeg/ffmpeg.c:818-877 | the loop ends for any number of filters; what write_packet is given is never more than the start of what is due; from a drained chain it is all of the composition of the filters, unless some filter reports an error, which is exactly when the call fails, and ends the program under exit_on_error; afterwards the chain is drained again and the stream is as after those writes one by one |
| OutputPath.Path.Pass | ffmpeg/ffmpeg.c:831-865 | one pass of the loop: either less remains to be received anywhere, or as much at a smaller index; a filter that is sent to has been drained |
| OutputPath.DrainedLoopIsDone | ffmpeg/ffmpeg.c:823-867 | when everything is drained, the filters one after the other on their whole inputs give exactly what was delivered, and each has taken in exactly what the ones before it put out |
| OutputPath.MoveKeepsFlow | ffmpeg/ffmpeg.c:852-865 | passing a packet one filter down takes it off that filter's future output and changes the future output of no other |
| OutputPath.WorkMoved | ffmpeg/ffmpeg.c:830-865 | the number of packets still to be received falls by one with each packet passed on |
| OutputPath.StreamsCompose | ffmpeg/ffmpeg.c:823-867 | packets sent one after the other come out as the composition of the filters on the whole stream |
| OutputPath.Bsf.Send | ffmpeg/libavcodec/bsf.c:173-195 | a packet is accepted exactly when the last one sent has been taken in, and then waits |
| OutputPath.Bsf.Receive | ffmpeg/libavcodec/bsf.c:197-223 | hands out what is pending first, then takes the waiting packet in, then asks for more |
| Mux.OutputStream.WritePacket | ffmpeg/ffmpeg.c:672-804 | the frame limit, the growth of the queue and the end of the program when it is full, and the repaired packet sent, as the specification says |
| Mux.OutputStream.RepairStamps | ffmpeg/ffmpeg.c:726-782 | sum less least less greatest is the value nearest last + 1 between the two stamps; then a backward dts is raised, and pts with it |
| Mux.UnchangedExactly | ffmpeg/ffmpeg.c:746-781 | a run whose stamps and durations are kept leaves unchanged exactly when no packet of it has a dts after its pts or too early after the dts before |
| Mux.ReorderedPicturesPass | ffmpeg/ffmpeg.c:746-781 | so a stream in decoding order, pts no earlier than dts, is handed on as it is |
| Mux.LeastChange | ffmpeg/ffmpeg.c:726-782 | over any run, a packet whose stamps are not inverted keeps its dts or takes the least one the muxer allows, and keeps its pts or takes that dts; stamps are not invented, and only those vsync drop takes away are lost; size and data stay, the duration but for constant frame rates |
| Mux.InvertedPairMeets | ffmpeg/ffmpeg.c:747-781 | over any run an inverted pair leaves with both stamps equal: one past the last dts if that is between them, else the nearer of the two, raised as the order demands |
| Mux.ExitsExactlyOnEarlyDts | ffmpeg/ffmpeg.c:762-773 | after the header a packet ends the program exactly under exit_on_error, where the order is checked and its dts too early |
| Mux.DtsGrows | ffmpeg/ffmpeg.c:762-781 | over any run, between packets with no dts-less packet in between, dts grows by at least one a packet (does not fall on a NONSTRICT muxer) |
| Mux.PtsNotBeforeDts | ffmpeg/ffmpeg.c:746-781 | whatever comes in, every packet of a run that leaves with both stamps has pts no earlier than dts |
| Mux.InvertedPairBecomes | ffmpeg/ffmpeg.c:747-781 | what an incoming dts after its pts becomes: the later of pts and last + 1 on a strict muxer, and the exact value on a NONSTRICT one |
| Mux.RepairKeepsOrder | ffmpeg/ffmpeg.c:762-783 | directly after a packet with a dts the repair restores order with it; after a packet without dts, order with an earlier one holds exactly when both incoming stamps have it |
| Mux.OrderedExactlyWhenGapsAre | ffmpeg/ffmpeg.c:746-783 | over any run, all packets with a dts leave in order exactly when the first one after every gap brings stamps past the dts that left before the gap |
| Mux.GapBreaksOrder | ffmpeg/ffmpeg.c:762-783 | a run 10, none, 5 leaves as it came |
| Mux.NothingLostOrReordered | ffmpeg/ffmpeg.c:686-716 | across the switch from buffering to writing, what was sent is the repaired run of a first part of the accepted packets and the queue is the rest, in order; frame_number, packets_written and data_size count them, and frame_number stays within max_frames |
| Mux.DropsExactlyBeyondLimit | ffmpeg/ffmpeg.c:686-692 | encoded video loses nothing here, any other stream exactly what comes after max_frames packets, and what was let in once is not dropped when the queue is drained |
| Mux.GrowsOnlyWhenFull | ffmpeg/ffmpeg.c:697-711 | the queue takes a packet at its end and grows only when full, to twice its size or to the limit |
| Mux.QueueStaysBounded | ffmpeg/ffmpeg.c:697-709 | the queue's capacity is a whole number of packets, between 8 and the larger of 8 and the limit, and never exceeded |
| Mux.OverflowExactlyAtLimit | ffmpeg/ffmpeg.c:697-706 | before the header a packet ends the program exactly when max(8, limit) packets wait |
| Mux.OutputStream.DrainQueue | ffmpeg/ffmpeg.c:2972-2976 | the queue is written out front first, uncounted, until empty or the program ends |
| Mux.OutputFile.CheckInit | ffmpeg/ffmpeg.c:2937-2980 | nothing happens while a stream is not initialised or when the header is refused, and the two are told apart; otherwise the header is written and every stream's queue is drained, unless the program ends in one of them |
| VideoSync.VideoOut.DecideRate | ffmpeg/ffmpeg.c:1070-1151 | the decision made step by step is the specified one |
| VideoSync.VariableRateFrame | ffmpeg/ffmpeg.c:1103-1141 | at a variable rate a picture is encoded once, unless it ended 0.6 ticks or more before the tick due; at the tick nearest to its start if it begins after the tick due and ends more than 0.6 ticks past it, and at the tick due otherwise |
| VideoSync.VariableRateOnTime | ffmpeg/ffmpeg.c:1103-1192 | over a whole run at a variable rate every picture is encoded at most once, in order, and no frame is more than 0.6 ticks outside the time of its picture |
| VideoSync.VariableRateEncodesExactly | ffmpeg/ffmpeg.c:1137-1139 | and it is encoded exactly when it ends less than 0.6 ticks before the tick after the last frame encoded until then |
| VideoSync.PassedThroughOnTime | ffmpeg/ffmpeg.c:1142-1145 | passed through, frame k of a run shows picture k within half a tick of its start |
| VideoSync.ConstantRateFrames | ffmpeg/ffmpeg.c:1124-1134 | at constant rate, no frame exactly for a picture that ends before the drop threshold or 1.1 ticks too early, one for an end within 1.1 ticks of the tick due, else as many as bring the output to its end; those that begin more than 1.1 ticks before the picture repeat the previous one, the others show it |
| VideoSync.InitialGapFrames | ffmpeg/ffmpeg.c:1117-1133 | VSCFR starts at the tick nearest to the first picture if that is half a tick or more away, and repeats nothing |
| VideoSync.LrintNear | ffmpeg/ffmpeg.c:1122-1145 | rounding goes to the nearest integer, from a midpoint to the even one |
| VideoSync.VideoOut.EncodeLoop | ffmpeg/ffmpeg.c:1180-1336 | which picture each encoding shows, with consecutive timestamps, up to the first that is missing or out of time |
| VideoSync.EndsEarlyExactly | ffmpeg/ffmpeg.c:1163-1214 | a call encodes all of its frames unless there are too many of them, the recording time is reached, or there is no picture to show |
| VideoSync.LimitsHold | ffmpeg/ffmpeg.c:1150 | no run encodes more than max_frames frames or one at or past the recording time |
| VideoSync.LimitOnlyCuts | ffmpeg/ffmpeg.c:1150-1151 | with a lower frame limit a call encodes the same frames, as many as there is room for |
| VideoSync.MedianIsMiddle | ffmpeg/ffmpeg.c:1071-1075 | mid_pred is one of its arguments, with one on either side |
| VideoSync.FlushRepeats | ffmpeg/ffmpeg.c:1071-1075 | a flush shows the last picture again, as often as the middle one of the last three calls repeated theirs |
| VideoSync.VideoOut.DoVideoOut | ffmpeg/ffmpeg.c:1036-1353 | the whole call: decision, counters, encodings and last picture |
| VideoSync.DriftAfterPicture | ffmpeg/ffmpeg.c:1077-1151 | after a picture at constant rate the output is late by at most half a tick (one tick where an initial gap is dropped) or the drop threshold, and early by at most 2.1 ticks unless it was so before |
| VideoSync.InitialGapDriftExactly | ffmpeg/ffmpeg.c:1113-1130 | where an initial gap is dropped, the drift is the sum of what rounding takes off the start and off the length, so it is at most half a tick exactly when that sum is |
| VideoSync.InitialGapDriftBelowOneTick | ffmpeg/ffmpeg.c:1465-1477 | for the starts the caller hands over, which are kept off the midpoints, that drift is at most 1 - 1/131072 |
| VideoSync.InitialGapDriftReached | ffmpeg/ffmpeg.c:1465-1477 | and is that much for one of them |
| VideoSync.DriftBound | ffmpeg/ffmpeg.c:1077-1134 | over any run at constant rate, CFR or VSCFR, without drop threshold: at most one tick late after each picture, at most 0.5 after any that had no initial gap dropped, and with pictures ending in order never below min(-2.1, the value before the first) |
| VideoSync.PtsGrow | ffmpeg/ffmpeg.c:1120-1145 | over any run that is not passed through, encoded timestamps strictly grow, and are consecutive at constant rate; frame_number counts them |
| VideoSync.ConservedExactly | ffmpeg/ffmpeg.c:1150-1192 | received = distinct encoded + dropped + pending and encoded = distinct + duplicated stay true over a call exactly when BooksRight holds of it |
| VideoSync.PicturesConserved | ffmpeg/ffmpeg.c:1150-1347 | both laws hold over every run of such calls |
| VideoSync.LateFirstPictureIsMisbooked | ffmpeg/ffmpeg.c:1127-1178 | a call for which BooksRight fails, and after which the laws do |
| LoopInput.DurationIsMultiple | ffmpeg/ffmpeg.c:4094-4166 | after n passes the duration is n times the longest contributing stream from its first pts to the end of its last frame; contributing streams without packets are looked past |
| LoopInput.DurationExactly | ffmpeg/ffmpeg.c:4094-4166 | which it is exactly when some contributing stream has a length or the last one that contributes has packets |
| LoopInput.NoOverlapExactly | ffmpeg/ffmpeg.c:4141-4166 | every pts of a pass is after every pts of the pass before, on a stream, exactly when the stream spans less than the loop length |
| LoopInput.ContributingStreamsDoNotOverlap | ffmpeg/ffmpeg.c:4141-4166 | so a contributing stream whose last frame has a length never overlaps itself |
| LoopInput.VideoBesideAudioOverlaps | ffmpeg/ffmpeg.c:4141-4149 | video beside shorter audio does, in every pass |
| LoopInput.InputFile.ProcessPts | ffmpeg/ffmpeg.c:4357-4365 | a packet's pts is shifted by the duration and widens its stream's extremes, and no other's |
| LoopInput.InputFile.SeekToStart | ffmpeg/ffmpeg.c:4113-4170 | the duration becomes the longest of itself and the contributing streams, audio with samples alone when there is some; the loop counter falls |
| PacketQueue.Queue.PutPrivate | ffmpeg/ffplay.c:394-421 | a packet is appended with the serial a flush packet bumps, refused after an abort; the tail pointer, counters and serials keep fitting the list |
| PacketQueue.Queue.Flush | ffmpeg/ffplay.c:465-481 | every queued packet is released once, in order, and the list and counters are empty; the serial stays |
| PacketQueue.Queue.Start | ffmpeg/ffplay.c:501-507 | the abort is lifted and a flush packet with a new serial is put |
| PacketQueue.Queue.Get | ffmpeg/ffplay.c:510-546 | one pass of the loop: abort, the head with its serial, nothing, or sleep |
| PacketQueue.GetAnswers | ffmpeg/ffplay.c:516-546 | get is refused exactly after an abort, and waits or finds nothing exactly on an open, empty queue |
| PacketQueue.FirstInFirstOut | ffmpeg/ffplay.c:394-546 | over any run of puts, gets, flushes, aborts and starts, the packets that left the queue and then those in it are exactly those offered while it was open, in order, each with the number of flush packets up to it as its serial |
| PacketQueue.SerialCountsFlushesBehind | ffmpeg/ffplay.c:406-408 | a queued packet's serial is the queue's less the flush packets behind it |
| DecoderProtocol.CodecNeverMixesSerials | ffmpeg/ffplay.c:556-586 | on every interleaving all packets given to the codec since its last flush have one serial, and a codec that was given anything was flushed first |
| DecoderProtocol.NoCurrentPacketSkipped | ffmpeg/ffplay.c:565-582 | while the codec is on the queue's serial, what it was given is what came off the queue, in order, each packet at least once and all its calls together |
| DecoderProtocol.PendingIsNotPassedOver | ffmpeg/ffplay.c:565 | while a packet of the queue's serial is pending the thread is never at the queue |
| DecoderProtocol.GivenUntilUsedUp | ffmpeg/ffplay.c:565-633 | every packet is given to the codec until it has used it up, failed on it or, asked to drain, has no frame left, and not once after that; only then comes the next, and only then does the thread turn to the queue |
| DecoderProtocol.PendingIsGivenAgain | ffmpeg/ffplay.c:558-634 | undisturbed, a pending packet of the current serial goes to the codec; the rest of it stays pending and a frame is tagged with that serial |
| DecoderProtocol.DrainFinishes | ffmpeg/ffplay.c:626-631 | from a pending drain packet, undisturbed, each of the frames the codec still has is put out, and then finished is on the queue's serial |
| DecoderProtocol.HeadIsTaken | ffmpeg/ffplay.c:565-582 | with nothing current pending the head of the queue is taken: a flush packet flushes the codec, a current one goes to it next, an older one is let go |
| DecoderProtocol.FrameSerialsAreTrue | ffmpeg/ffplay.c:587-636 | the serial a frame is tagged with is that of every packet behind it |
| DecoderProtocol.FinishedMeansDrained | ffmpeg/ffplay.c:2026-2027 | finished equal to the queue's serial means the drain packet of that serial was decoded, or the filter graph has ended after a frame of it |
| DecoderProtocol.FilterEndFinishesUndrained | ffmpeg/ffplay.c:2127-2131 | a run in which only the second is true |
| DecoderProtocol.AbortedDecoderReturns | ffmpeg/ffplay.c:777-784 | after the abort the decoder thread is never asleep in the packet queue and every step of its own brings it nearer to returning |
| DecoderProtocol.StepKeepsInv | ffmpeg/ffplay.c:2889-2901 | every step of seeks, of opening and closing a stream and of the decoder keeps the serial invariant |
| DecoderProtocol.Decoder.FetchPacket | ffmpeg/ffplay.c:568-571 | the decoder's fetch on the real queue is the step of the interleaving |
| DecoderProtocol.Decoder.HandlePacket | ffmpeg/ffplay.c:572-581 | a flush packet flushes the codec, a stale packet is let go, a current one becomes pending |
| DecoderProtocol.Decoder.DecodePacket | ffmpeg/ffplay.c:584-633 | what a call of the codec does to the pending packet and to finished |
| DecoderProtocol.Decoder.EndFilter | ffmpeg/ffplay.c:2127-2131 | the thread's own write of finished when its buffer sink has ended |
| DecoderThread.JoinEnds | ffmpeg/ffplay.c:777-784 | after the abort and the signal the thread sleeps in neither queue, and until it has returned it has a step; each of its steps brings it nearer to returning and nobody sets it back; then, and only then, the join goes on |
| DecoderThread.BothQueuesAtOnce | ffmpeg/ffplay.c:2065-2189 | a decoder thread that goes through both queues is in each a thread of that queue's own interleaving, with one abort flag, so all results about either hold of it |
| FrameQueue.IndicesCongruent | ffmpeg/ffplay.c:649-759 | windex is rindex + size + (push half done) - (next half done) modulo the ring size, in every reachable state; that size is as asked for, up to 16 |
| FrameQueue.WriterAloneInItsSlot | ffmpeg/ffplay.c:689-734 | the slot being written is none of those the reader may look at or release |
| FrameQueue.FramesComeOutInOrder | ffmpeg/ffplay.c:699-759 | frames are consumed in push order, each once; with keep_last the frame just moved past is still in the slot of peek_last until the next call of next |
| FrameQueue.RefusedExactlyUnderAbort | ffmpeg/ffplay.c:704-734 | a thread waits exactly for a free slot or a frame not shown, without an abort, and past the wait is refused exactly under one |
| FrameQueue.NextFrameIsTaken | ffmpeg/ffplay.c:720-759 | in every reachable state without an abort, a frame not yet shown can be taken by steps of the reader alone, and is the next in push order |
| FrameQueue.FrameIsPushed | ffmpeg/ffplay.c:704-744 | and with room a frame can be pushed by steps of the writer alone |
| FrameQueue.NobodyStuck | ffmpeg/ffplay.c:704-734 | with a ring larger than what it keeps, writer and reader never sleep together, and after abort and signal nobody sleeps |
| FrameQueue.DeadlockExactlyWhenOneKeptSlot | ffmpeg/ffplay.c:704-759 | both can sleep together exactly for one slot that is kept |
| FrameQueue.StepKeepsInv | ffmpeg/ffplay.c:682-759 | every atomic step of either thread, giving back an unfilled slot and leaving a frame where it is among them, keeps contents, counts and the reasons to sleep |
| FrameQueue.Queue.PeekWritable | ffmpeg/ffplay.c:704-718 | the wait, the refusal or the slot granted are those of the two steps of the interleaving, abort_request being read once in the loop and once after the unlock; it waits exactly on a full ring without an abort, and is refused only under one |
| FrameQueue.Queue.PeekReadable | ffmpeg/ffplay.c:720-734 | the same for the reader and the frame it looks at, which waits exactly when every frame has been shown |
| FrameQueue.Queue.NextRelease | ffmpeg/ffplay.c:746-752 | the first next of a keeping queue only marks the frame; any other releases the oldest slot |
| AudioCallback.Player.Callback | ffmpeg/ffplay.c:2375-2411 | every callback ends, fills its whole block piece by piece from the next buffers, at any volume and for any length, and decodes just as many buffers as it needs |
| AudioCallback.Player.MixAudio | ffmpeg/ffplay.c:2402-2404 | mixing goes by whole 16-bit samples; an odd byte at the end stays silent |
| AudioCallback.FilledIsStream | ffmpeg/ffplay.c:2382-2409 | where one callback passes from buffer to buffer is not heard: the bytes are the decoded stream's next ones, rendered as a whole |
| AudioCallback.ChunkingDoesNotMatter | ffmpeg/ffplay.c:2382-2410 | nor is where the callbacks end: for any lengths at full volume or muted, and below it when no cut is inside a sample |
| AudioCallback.ChunkingExactly | ffmpeg/ffplay.c:2382-2410 | over all decoders, mixers and settings, for 16-bit buffers: cuts are never heard exactly when none but the last is inside a sample |
| AudioCallback.OddCutIsHeard | ffmpeg/ffplay.c:2402-2404 | a cut inside a sample loses its first byte |
| AudioCallback.FullVolumeIsVerbatim | ffmpeg/ffplay.c:2399-2400 | at full volume, unmuted and without failed decodes they are the decoded bytes themselves, for any lengths |
| AudioCallback.MixedSampleBySample | ffmpeg/ffplay.c:2399-2405 | below full volume, cut between samples, every whole sample put out is the decoded one mixed, or silence for a failed decode |
| AudioCallback.MutedIsSilent | ffmpeg/ffplay.c:2399-2405 | muted, every byte is silence |
| AudioCallback.FailedDecodeIsSilence | ffmpeg/ffplay.c:2385-2388 | a failed decode is played as the most whole frames that fit 512 bytes, of silence |
| Clock.ApplyKeepsValid | ffmpeg/ffplay.c:1400-1440 | the speed stays in [0.9, 1.01], and changing it or pausing does not change the value shown; only the pause key pauses, and it leaves the speed alone |
| Clock.AdvanceBounded | ffmpeg/ffplay.c:1317-1347 | over any run the clock advances by between 0.9 and 1.01 times the time it ran, not counting the moment between the two time readings of an operation |
| Clock.PausedStandsStill | ffmpeg/ffplay.c:1317-1327 | while paused the value stands still |
| Clock.ExternalClock.CheckExternalSpeed | ffmpeg/ffplay.c:1400-1412 | which way the speed goes for which queue fill |
| Clock.SpeedFollowsQueues | ffmpeg/ffplay.c:1401-1411 | a queue of two packets or less slows the clock, otherwise queues of more than ten speed it up, by one step within the limits, and otherwise it moves one step towards 1 |
| Clock.SpeedComesBack | ffmpeg/ffplay.c:1408-1411 | left to themselves the checks bring the speed back to 1 in as many calls as it is steps away, and keep it there |
| Clock.SpeedIsInSteps | ffmpeg/ffplay.c:1401-1411 | every speed of a run from 1 on is a whole number of steps away from it, so it is 1 again and not passed by |
| FilterInputs.FramesBufferedInOrder | ffmpeg/ffmpeg.c:2150-2222 | over any run of frames, ends and builds from elsewhere, the frames handed to an input's buffer sources, then those in its queue, are the frames accepted, in order; a built graph leaves none waiting; its end of file is delivered when the input has ended and never before a frame |
| FilterInputs.FinishedMeansAllEnded | ffmpeg/ffmpeg.c:2225-2251 | the outputs of an unbuilt graph are finished only when every input has ended |
| FilterInputs.FramesFitExactly | ffmpeg/ffmpeg.c:2156-2222 | over any run every frame went to a buffer source made for its format (rate, channels and layout of sound, size of video, pixel or sample format and hardware frames of both) exactly when no step was a misfit: a build with queued frames of another format, or a frame that agrees with an input whose source is out of date |
| FilterInputs.StepFitsExactly | ffmpeg/ffmpeg.c:2156-2222 | the same for one step |
| FilterInputs.OutOfDateExactly | ffmpeg/ffmpeg.c:2173-2207 | the source of a built graph is out of date exactly after an error came out of the old graph while a frame of another format was to rebuild it |
| FilterInputs.SourcesStayCurrent | ffmpeg/ffmpeg.c:2173-2214 | in a run without such errors every buffer source of a built graph was made with the format its input remembers, and no input of it lacks one |
| FilterInputs.KnownFrameIsOnlyPushed | ffmpeg/ffmpeg.c:2156-2217 | a frame of the format remembered causes no rebuild of a built graph |
| FilterInputs.OtherFrameRebuilds | ffmpeg/ffmpeg.c:2173-2222 | any other is remembered, and then waits while a format is missing, or has all inputs torn down and made anew with the formats remembered before it is pushed |
| FilterInputs.BuiltMeansFormatsKnown | ffmpeg/ffmpeg.c:2180-2197 | a built graph has a format for every audio and video input |
| FilterInputs.EofFinishesExactly | ffmpeg/ffmpeg.c:2225-2251 | the end of an input finishes the outputs exactly when the graph is unbuilt and it was the last to end; a built graph passes it on |
| FilterInputs.GuessOnlyFills | ffmpeg/ffmpeg.c:1861-1877 | the demuxer's formats go to the inputs that have none, and change nothing else |
| FilterInputs.FilterGraph.Configure | ffmpeg/ffmpeg_filter.c:985-1147 | the graph is torn down and built anew, every queue is emptied into it in order, and ended inputs get their end of file after that |
| FilterInputs.FilterGraph.SendFrame | ffmpeg/ffmpeg.c:2150-2222 | when a frame is queued, when the graph is rebuilt first, and when it is refused |
| FilterInputs.FilterGraph.BuildIfReady | ffmpeg/ffmpeg.c:4495-4503 | an unbuilt graph is built as soon as every format is known |
| FilterInputs.FilterGraph.FlushUnbuilt | ffmpeg/ffmpeg.c:1859-1882 | inputs that never got a frame take the demuxer's format, and the graph is built if that is all of them |
| SplitCommandline.ParseContext.Split | ffmpeg/cmdutils.c:752-848 | the context is the declared grouping of the tokens of the words, up to the first error, which is returned |
| SplitCommandline.DeclaredAppend | ffmpeg/cmdutils.c:661-702 | closing a group or adding an option is what the declarative grouping gains from one more token |
| SplitCommandline.EveryWordUsedOnce | ffmpeg/cmdutils.c:765-843 | on success the words of the tokens, one after the other, are the words of the command line |
| SplitCommandline.TokensAreSensible | ffmpeg/cmdutils.c:765-843 | every token says what its words mean, in the order of precedence separator, option, AVOption, no-option: the first separator or option of that name, an argument as the option's value, "1" for a plain option and "0" for the no-form of a switch; after a double dash all words are plain |
| SplitCommandline.ErrorsAreTrue | ffmpeg/cmdutils.c:788-843 | an error leaves exactly the words from the first that cannot be read, and says why it cannot: its argument is missing, its AVOption value was refused, or nothing of that name is known |
| SplitCommandline.GlobalsAreGlobal | ffmpeg/cmdutils.c:661-678 | each option is kept globally or in a group by its own flags |
| SplitCommandline.GroupsAreNamed | ffmpeg/cmdutils.c:683-702 | the closed groups have the arguments of their separators, in order |
| SplitCommandline.OptionsPlacedOnce | ffmpeg/cmdutils.c:661-702 | every per-file option and AVOption is in exactly one closed group or left over, and every closed group in exactly one of the context's lists, each in its place |
| SplitCommandline.ParseContext.FindOption | ffmpeg/cmdutils.c:217-228 | the first definition of the name up to a colon |
| SplitCommandline.ParseContext.MatchGroupSeparator | ffmpeg/cmdutils.c:641-654 | the first group with this separator, or -1 |
| ConfigReader.Reader.Parse | ffmpeg/ffserver_config.c:1210-1307 | the return is 0 exactly when reading did not break off and no error was counted; the lists of all blocks and of feeds end at their tail pointers, have no cycle, and the second is the feeds of the first in order |
| ConfigReader.Reader.ParseLine | ffmpeg/ffserver_config.c:1230-1292 | one line, through whichever branch, does what it means given whether a block is open; at most one is |
| ConfigReader.NoCycle | ffmpeg/ffserver_config.c:1256-1261 | no block stands twice in the list |
| ConfigReader.NoFeedCycle | ffmpeg/ffserver_config.c:1256-1261 | no feed stands twice in the list of feeds |
| ConfigReader.NoTagErrorExactlyWhenFlat | ffmpeg/ffserver_config.c:1240-1299 | unless reading breaks off, no error is about nesting exactly when the tag lines are a flat sequence of matched pairs |
| ConfigReader.ZeroMeansFlat | ffmpeg/ffserver_config.c:1294-1306 | a return of 0 implies flat tags |
| ConfigReader.ReturnsZeroExactly | ffmpeg/ffserver_config.c:1230-1306 | the return is 0 exactly when tags are flat, names apart and no line fails where it stands: a feed unknown so far or outside a stream, a URL outside a redirect, a redirect closed without one, a command with an error |
| ConfigReader.BlockTakes | ffmpeg/ffserver_config.c:850-863 | a stream takes the first feed of the name it gives among those before it, a redirect its URL, and nothing else changes |
| ConfigReader.AppendKeepsApart | ffmpeg/ffserver_config.c:709-712 | one more block keeps names apart exactly when no error is reported for its name |
| ConfigReader.NoNameErrorExactlyWhenApart | ffmpeg/ffserver_config.c:709-712 | over any lines no name error is reported exactly when, of two blocks that share a name, the later is always a redirect, or a feed and the earlier stands before the first feed |
| ConfigReader.NamesApartWithoutErrors | ffmpeg/ffserver_config.c:709-712 | so without errors names are apart in this sense |
| ConfigReader.StreamAndFeedShareAName | ffmpeg/ffserver_config.c:709-712 | a configuration without errors in which a feed takes a stream's name |

## Left out

- Codecs, demuxers, muxers, filters and option tables: their answers are parameters.
- The copying of codec parameters between bitstream filters (`bsf_extradata_updated`): it changes no packet; filter errors are modelled, failures of that copy are not.
- OutputPath.Path.OutputPacket: after a filter error only the prefix property is stated for later calls, because a chain that is not drained may refuse a packet.
- OutputPath.Bsf.Send: the null packet that ends a stream, and the refusal after it; this loop never sends one.
- OutputPath.Bsf.Receive: the filter behind the call is an oracle that takes the waiting packet in, puts out finitely many packets for it and may then report an error; end of file is not modelled.
- Mux.OutputStream.WritePacket: packets are taken in the muxer's time base, so nothing is rescaled; errors of `av_interleaved_write_frame`, the streams they close and the side data statistics of video packets are not modelled.
- Mux.OutputFile.CheckInit: the improved muxing time base of a stream with an empty queue.
- LoopInput.DurationIsMultiple: streams share one time base, and the constant `ts_offset`, the scale and the discontinuity correction of `process_input` are taken as part of the incoming timestamps. The huge negative length of a stream without packets is not wrapped to 64 bits.
- LoopInput.NoOverlapExactly: stated for the files of LoopInput.DurationExactly; in the others the duration is no multiple of the loop length.
- VideoSync.VideoOut.DecideRate: the choice of the sync method for `VSYNC_AUTO` is an input.
- VideoSync.VideoOut.DoVideoOut: so is a picture's duration; forced key frames and statistics are not modelled.
- VideoSync.VariableRateOnTime: as the other results on timing, stated for runs in which no call ends early and the frame limit cuts nothing; what the limit does otherwise is VideoSync.LimitOnlyCuts.
- VideoSync.PicturesConserved: runs that end early at the recording time are left out of the conservation laws, as the program stops encoding there with its counters already advanced.
- DecoderProtocol.AbortedDecoderReturns: the wait of the thread inside the frame queue is not in this interleaving; DecoderThread.JoinEnds covers it.
- DecoderThread.BothQueuesAtOnce: which frame goes into a slot is not tied to which frame the codec gave, since filters come in between.
- Memory allocation failures, reference counts, thread creation failures and `exit_program` cleanup.
- The interleaving of several decoders, the video refresh logic and SDL; the audio and video clocks and the sync to a slave clock.
- FilterInputs.FramesBufferedInOrder: an error while queued frames are being pushed into a new graph, which drops the frame in hand, is not modelled.
- FilterInputs.FilterGraph.Configure: nor are those errors here, nor subtitle queues; building the graph may fail.
- FilterInputs.FinishedMeansAllEnded: about the outputs finished by an end of file; those flush_encoders finishes after building the graph are not counted.
- AudioCallback.Player.Callback: `audio_decode_frame` is an oracle that never gives an empty buffer, and SDL_MixAudio one for each 16-bit sample; the sample display and the clocks set at the end are not modelled.
- SplitCommandline.ParseContext.Split: the option dictionaries are kept as the list of their settings; the defaults put in by `init_opts` and Windows argument conversion are not modelled.
- The global, feed and stream commands of the configuration other than tags, `Feed` and `URL`: a command is the number of errors it reports; every opening tag is taken to carry its closing bracket.
