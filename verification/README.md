# Voice path: a Dafny model

This project models the real-time voice path of the backend and two smaller cores beside it, and
proves what they promise over every input, every chunking and every run.

- **Agent voice DSP.** `Chunks` is a stream cut into pieces, `Pcm` is little-endian PCM16 and the odd
  byte a stream holds back. `Limiter` is the look-ahead peak limiter: its gain stages as functions of
  the whole history, the rings and the monotonic deque as the class `LookAheadLimiter`. `Resampler`
  holds the decimator and the interpolator, `VoiceChain` their composition with the presence bell and
  the make-up gain.
- **AudioSocket transport.** `Framer` cuts a TCP stream into packets and dispatches them,
  `OutboundQueue` is the session's bounded frame queue with its drain waiters, `Pacer` the
  absolute-slot clock, `VoiceActivity` the adaptive-noise voice detector.
- **Realtime response gate.** `ResponseGate` is the provider's gate, `GateProtocol` runs it against
  a small server over two FIFO channels under every interleaving, `Playback` says what the playback
  horizon means for the ear.
- **Turn transcripts.** `TurnTranscript`, over the bounded memory of `BoundedMemory`.
- **AMI multiplexer.** `AmiStream` splits the stream, parses packets and writes actions; `AmiActions`
  matches responses to the actions in flight.
- **Costs.** `Price` is the pricing arithmetic, `UsageDelta` the per-message increments taken from
  cumulative reports.

Samples, gains, levels and amounts are `real`, so statements about them are about exact arithmetic.
Clocks are integer or real arguments. State that the program keeps in closures and objects is kept
in classes; each method is proved equal to a specification function of its history, and the lemmas
are about those functions. The FIR coefficients, the biquad coefficients, the look-ahead (any length
of at least 2), the ceiling and the release step are parameters.

## Where the code falls short of its comments

- A turn does not always end in one final line (`turn-transcript.ts` lines 37-41): when a call names
  a different id than the open turn's, the open turn is dropped without one. `EndsInOneFinalExactly`
  is the exact condition, `TurnCanBeDropped` an example.
- Output audio and text tokens do not sum to the completion by construction (`price.ts` line 404).
  `OutputSumsExactly` says when they do, `OutputCanFallShort` gives a row on which they do not.
- On a cold row whose modality counts exceed the prompt the input cells sum to more than the prompt:
  `CellsSumToPromptExactly`.
- A `response.created` without an id leaves a queued turn with nothing to move it: `EmptyIdStrands`
  and the run `EmptyIdStrandsRun`.
- The safety timer does not stand in for a lost `response.done`: an expiry leaves the active response
  (`ExpiryLeavesActive`), and the queued turn stays (`LostEventExactly`, `LostDoneStrandsRun`).
- A turn queued while the socket is closed is taken out of the queue by an expiry and sent nowhere:
  `FlushedTurnIsSent`, `ClosedSocketLosesTurn`.
- The safety timer can expire while a `response.create` or its answer is still on the way. A second
  create follows, at once or with the next request, and in some continuation meets a busy server
  (`ExpirySafeExactly`, `ExpiryCollidesRun`, `ExpiryCollidesLaterRun`). A response the server starts by
  itself does the same unless the gate awaits an answer that is not coming (`ServerStartSafeExactly`,
  `ServerStartCollidesRun`), and so does losing the only word of a running response (`LossCollides`).
  `StepSafeExactly` is the exact condition for all of them.
- A listener that hangs up does not stop the parsing of the bytes at hand (`audiosocket.ts` lines
  1408-1410): only a TERMINATE does, and what is dropped is the audio (`ClosedExactly`,
  `AudioDeliveredExactly`).
- A steady loud sound is not always absorbed inside five seconds (`audiosocket.ts` lines 452-460): it
  takes at most 256 frames, 5.12 s, and `FiveSecondsAreTooShort` is a tone that outlasts 250.
- The displayed token cells are rounded one by one, and overshoot their marginal by one exactly on
  a tie: `DisplayedCellsSum`, `DisplayedCellsCanOvershoot`.

## Model

| member | source | states |
|---|---|---|
| Limiter.CannotClip | apps/backend/src/lib/ai/codec.ts:680-696 | No push, after any history, returns a value whose magnitude exceeds the ceiling. |
| Limiter.SilentAtFirst | apps/backend/src/lib/ai/codec.ts:784-785 | The first lookahead - 1 outputs are silence. |
| Limiter.ConversionNeverSaturates | apps/backend/src/lib/ai/codec.ts:764 | With a ceiling inside int16, the saturating conversion after the limiter is plain rounding on every sample. |
| Limiter.GainWithinRequired | apps/backend/src/lib/ai/codec.ts:688-692 | The gain applied at n is at most the gain required by the sample it lands on, n + 1 - lookahead. |
| Limiter.GainInUnit | apps/backend/src/lib/ai/codec.ts:788-789 | The applied gain is in (0, 1]. |
| Limiter.RequiredIsLargest | apps/backend/src/lib/ai/codec.ts:681-682 | The required gain is the largest that keeps a sample within the ceiling, and a loud sample then stands exactly at it. |
| Limiter.ReleaseIsEnvelope | apps/backend/src/lib/ai/codec.ts:684-685 | The release value is the least, over all windows so far, of the window minimum plus a release step for each sample since. |
| Limiter.GainSparesNothing | apps/backend/src/lib/ai/codec.ts:880-892 | The applied gain is at least what the loudest sample so far may be given: no more is taken off than some sample needs. |
| Limiter.SteadyLoudIsAtCeiling | apps/backend/src/lib/ai/codec.ts:880-905 | A stream of one loud magnitude comes out at exactly the ceiling, with its signs. |
| Limiter.WorstIsLeast | apps/backend/src/lib/ai/codec.ts:788-789 | The worst gain is unity or one that was applied, and none was smaller. |
| Limiter.GainSlew | apps/backend/src/lib/ai/codec.ts:858-892 | The applied gain rises by at most the release step and falls by at most 1/lookahead from one push to the next. |
| Limiter.GainRecovers | apps/backend/src/lib/ai/codec.ts:550-561 | From steps + 2(lookahead - 1) pushes after the last loud sample on, where steps release steps make up unity, the gain is exactly 1. |
| Limiter.TransparentBelowCeiling | apps/backend/src/lib/ai/codec.ts:541-548 | A stream that never exceeds the ceiling comes out unchanged, lookahead - 1 samples late. |
| Limiter.TransparentAfterRecovery | apps/backend/src/lib/ai/codec.ts:541-561 | After the last loud sample and a full recovery, the output is the input delayed. |
| Limiter.RecoveryByDefault | apps/backend/src/lib/ai/codec.ts:541-561 | With 48 samples of look-ahead and 3600 release steps to unity, that is 3694 pushes after the last loud sample. |
| Limiter.MinOverIsLeast | apps/backend/src/lib/ai/codec.ts:684 | The brute-force scan is the least required gain of its window: a lower bound that is attained. |
| Limiter.DequeRefinesScan | apps/backend/src/lib/ai/codec.ts:820-855 | After each push the deque's head is the window minimum; at most lookahead - 1 entries are live before the insertion and at most lookahead after. |
| Limiter.DequeDescribesWindow | apps/backend/src/lib/ai/codec.ts:804-807 | The head is the last place where the window takes its minimum, and the rest describes in the same way what follows the head. |
| Limiter.MinimaAscend | apps/backend/src/lib/ai/codec.ts:804-807 | Live indices and live values both ascend strictly, and each value is the required gain at its index. |
| Limiter.SlotIsRemainder | apps/backend/src/lib/ai/codec.ts:842-854 | The ring slot of k is k modulo the ring length. |
| Limiter.LookAheadLimiter.constructor | apps/backend/src/lib/ai/codec.ts:799-818 | A fresh limiter has the state of an empty history. |
| Limiter.LookAheadLimiter.WindowMinimum | apps/backend/src/lib/ai/codec.ts:820-855 | Expiry, back-pops and insertion on the rings do to the live entries what the deque step says, with no live slot overwritten. |
| Limiter.LookAheadLimiter.LeastRequired | apps/backend/src/lib/ai/codec.ts:820-855 | The value the deque answers is the brute-force minimum of the last lookahead required gains. |
| Limiter.LookAheadLimiter.Smooth | apps/backend/src/lib/ai/codec.ts:858-873 | The running sum over the ring gives the mean of the last lookahead release values, the first one standing in for the time before the start. |
| Limiter.LookAheadLimiter.Follow | apps/backend/src/lib/ai/codec.ts:884-892 | The release attacks at once and climbs by at most a step, the gain is the mean of the releases, and the worst gain is kept. |
| Limiter.LookAheadLimiter.Push | apps/backend/src/lib/ai/codec.ts:880-905 | One push keeps every ring equal to its specification on the history and appends exactly one value to the specified output stream. |
| Limiter.LookAheadLimiter.Reset | apps/backend/src/lib/ai/codec.ts:907-917 | A reset limiter is in the state of an empty history, from any state. |
| Resampler.DownsampleChunks | apps/backend/src/lib/ai/codec.ts:355-431 | However a byte stream is cut, odd lengths and empty chunks included, the outputs concatenate to the decimation of the whole stream. |
| Resampler.Decimated | apps/backend/src/lib/ai/codec.ts:403-419 | There are ceil(N/3) outputs, and the j-th is the clamped convolution of the coefficients with the stream at 3j, zeros before the start. |
| Resampler.ConvolveIsContributions | apps/backend/src/lib/ai/codec.ts:372-386 | Each input sample contributes its value times the coefficient at its distance, and nothing else does. |
| Resampler.OutputCountExact | apps/backend/src/lib/ai/codec.ts:403-405 | The count computed before the loop takes the outputs so far to ceil(N/3), from any phase. |
| Resampler.ProducedCount | apps/backend/src/lib/ai/codec.ts:403-419 | The loop writes exactly as many samples as were allocated. |
| Resampler.ProducedCompletes | apps/backend/src/lib/ai/codec.ts:355-363 | What a chunk produces is what the decimation of the longer stream adds to that of the shorter one. |
| Resampler.DotBound | apps/backend/src/lib/ai/codec.ts:524-526 | A filtered sample is at most the peak of the input times the sum of the coefficients' magnitudes. |
| Resampler.Downsampler.Filter | apps/backend/src/lib/ai/codec.ts:372-386 | Walking the ring back from its newest sample computes the convolution at the newest sample of the stream. |
| Resampler.Downsampler.Feed | apps/backend/src/lib/ai/codec.ts:408-419 | One sample enters the ring, the phase moves on, and an output appears exactly when the phase is zero. |
| Resampler.Downsampler.Process | apps/backend/src/lib/ai/codec.ts:389-422 | A call appends to the bytes returned before exactly what the decimation of the bytes so far adds. |
| Resampler.Downsampler.Reset | apps/backend/src/lib/ai/codec.ts:424-429 | A reset downsampler is in the state of an empty stream. |
| Resampler.UpsampleChunks | apps/backend/src/lib/ai/codec.ts:298-353 | However a byte stream is cut, the interpolated chunks concatenate to the interpolation of the whole stream. |
| Resampler.InterpolatedAt | apps/backend/src/lib/ai/codec.ts:301-307 | Output 3i + 2 is the input sample i, and the two before it lie in order between the neighbouring inputs, at the thirds to the nearest whole number. |
| Resampler.InterpolatedConcat | apps/backend/src/lib/ai/codec.ts:309-353 | Interpolating a concatenation is interpolating the parts, each from the last sample before it. |
| Resampler.Upsampler.Process | apps/backend/src/lib/ai/codec.ts:314-346 | A call appends exactly what the interpolation of the bytes so far adds. |
| Pcm.SamplesResume | apps/backend/src/lib/ai/codec.ts:392-401 | Putting the held byte in front of the next chunk continues the sample stream, and the byte held next is the stream's own odd byte. |
| Pcm.SampleExactly | apps/backend/src/lib/ai/codec.ts:410 | Sample i is bytes 2i and 2i + 1, the low one first, in two's complement. |
| Chunks.ConcatJoins | apps/backend/src/lib/ai/codec.ts:360-361 | One chunk is the stream it holds, and cutting a stream further does not change it. |
| Pcm.SamplesOfBytes | apps/backend/src/lib/ai/codec.ts:66-86 | Reading back written samples is the identity. |
| RealArithmetic.RoundIsNearest | apps/backend/src/lib/ai/codec.ts:49 | Rounding gives the nearest whole number, the upper one of two. |
| RealArithmetic.ClampIsNearest | apps/backend/src/lib/ai/codec.ts:49-57 | The saturating conversion gives the 16-bit value nearest to the rounded one. |
| VoiceChain.RunChain | apps/backend/src/lib/ai/codec.ts:697-778 | For any settings and any chunking the outputs concatenate to the one-shot output of the chain, or of the bare downsampler when both knobs are zero. |
| VoiceChain.ChainKeepsContract | apps/backend/src/lib/ai/codec.ts:671-678 | The output is as long as the bare downsampler's, ceil(n/3) samples, and equals it when bypassed. |
| VoiceChain.SetupExactly | apps/backend/src/lib/ai/codec.ts:697-719 | The chain is bypassed exactly when neither setting is above zero; a bell is designed exactly for a presence above zero, and no setting is read above its limit. |
| VoiceChain.StagedWithinCeiling | apps/backend/src/lib/ai/codec.ts:761-765 | Every sample handed to the decimator is the rounded limiter output, unsaturated, and exceeds the ceiling by at most the half a rounding adds. |
| VoiceChain.BellSolvesEquation | apps/backend/src/lib/ai/codec.ts:724-735 | On every stream the bell's outputs solve the difference equation of its transfer function, from silence, and the gain scales them. |
| VoiceChain.NoBellIsTransparent | apps/backend/src/lib/ai/codec.ts:725-727 | Without a bell every sample passes unchanged but for the gain. |
| VoiceChain.GainMultiplies | apps/backend/src/lib/ai/codec.ts:762 | The make-up gain is linear in the sample, and unity changes nothing. |
| VoiceChain.AgentVoiceChain.Process | apps/backend/src/lib/ai/codec.ts:745-768 | A call appends what the whole chain's output on the bytes so far adds, and the inner downsampler holds no byte. |
| VoiceChain.AgentVoiceChain.Reset | apps/backend/src/lib/ai/codec.ts:770-776 | A reset chain is in the state of an empty stream in all its stages. |
| Framer.RoundTrip | apps/backend/src/lib/ai/audiosocket.ts:321-329 | Encoding packets of up to 65535 bytes and parsing the concatenation gives them back, up to and including the first TERMINATE, with nothing left over. |
| Framer.EncodedLayout | apps/backend/src/lib/ai/audiosocket.ts:321-329 | A packet is its type byte, its length with the high byte first, and its payload. |
| Framer.ReceiveChunks | apps/backend/src/lib/ai/audiosocket.ts:1374-1428 | However the encoded packets are cut into chunks and whenever someone hangs up, exactly they are dispatched in order up to the first TERMINATE, which alone closes. |
| Framer.ParsingResumes | apps/backend/src/lib/ai/audiosocket.ts:1381-1428 | Parsing what was left over followed by more bytes continues the parse of the whole stream; after a TERMINATE nothing more is parsed. |
| Framer.ResidualIsIncomplete | apps/backend/src/lib/ai/audiosocket.ts:1375-1379 | What is kept is the unparsed suffix of the stream and never holds a complete packet. |
| Framer.HandleAllConcat | apps/backend/src/lib/ai/audiosocket.ts:1390-1406 | Dispatching packets in two batches is dispatching them in one. |
| Framer.PacketsReceivedCount | apps/backend/src/lib/ai/audiosocket.ts:1430-1512 | The session is the one of the first valid UUID packet, its count is that packet and everything after it even once hung up, and it is hung up from the first hang-up after it began. |
| Framer.AudioDeliveredExactly | apps/backend/src/lib/ai/audiosocket.ts:1514-1532 | Exactly the non-empty audio packets after the session's start and before any hang-up are delivered, in order. |
| Framer.EventsExactly | apps/backend/src/lib/ai/audiosocket.ts:1430-1546 | Exactly these events reach the listeners, in order: one session for the first valid UUID, every malformed UUID and error code, digits after the start even when hung up, audio before any hang-up. |
| Framer.ClosedExactly | apps/backend/src/lib/ai/audiosocket.ts:1405-1414 | Dispatching the packets of a stream closes the connection exactly when the parse stopped at a TERMINATE, whoever hangs up. |
| Framer.Connection.Consume | apps/backend/src/lib/ai/audiosocket.ts:1381-1428 | After every read the buffer is the residue of all bytes so far and the dispatcher has handled exactly their packets. |
| OutboundQueue.Session.Conservation | apps/backend/src/lib/ai/audiosocket.ts:772-865 | In every reachable state the frames enqueued are those sent, dropped, abandoned, discarded and queued, and sent followed by queued is an in-order subsequence of them. |
| OutboundQueue.Session.WireCarriesSent | apps/backend/src/lib/ai/audiosocket.ts:978-1026 | The socket has been given the frames sent, each once and in order, and nothing else but silence and TERMINATE. |
| OutboundQueue.Session.DrainedMeansPlayed | apps/backend/src/lib/ai/audiosocket.ts:819-845 | A waiter told "true" had every frame queued at its registration sent or pushed out by an overflow. |
| OutboundQueue.SentThenQueued | apps/backend/src/lib/ai/audiosocket.ts:978-1082 | Whatever the fates, the frames sent followed by those still queued keep the enqueued order. |
| OutboundQueue.FramesConserveBytes | apps/backend/src/lib/ai/audiosocket.ts:772-787 | Re-framing loses, repeats and reorders no byte. |
| OutboundQueue.FramesResume | apps/backend/src/lib/ai/audiosocket.ts:772-787 | The frames do not depend on how the audio is cut into send calls. |
| OutboundQueue.CountTotal | apps/backend/src/lib/ai/audiosocket.ts:149-185 | Every frame that left the queue has exactly one of the four fates. |
| OutboundQueue.Session.Send | apps/backend/src/lib/ai/audiosocket.ts:772-787 | Every whole frame of the tail and the new audio is enqueued, the rest is the tail, and only overflow makes frames leave; a closed session ignores the call. |
| OutboundQueue.Session.Flush | apps/backend/src/lib/ai/audiosocket.ts:789-799 | The partial frame goes out padded with silence, and an empty tail adds nothing. |
| OutboundQueue.Session.EnqueueFrame | apps/backend/src/lib/ai/audiosocket.ts:1075-1082 | A frame is added at the back and the oldest one leaves exactly when the queue was at its cap. |
| OutboundQueue.Session.DiscardQueuedAudio | apps/backend/src/lib/ai/audiosocket.ts:801-813 | Everything queued leaves as discarded, the count is returned, and every waiter is told "false". |
| OutboundQueue.Session.WaitForQueueDrain | apps/backend/src/lib/ai/audiosocket.ts:819-845 | A closed session answers "false" and an empty queue "true" at once; otherwise the waiter is pending with the frames queued now as its span. |
| OutboundQueue.Session.WaiterTimesOut | apps/backend/src/lib/ai/audiosocket.ts:819-845 | A waiter that times out is told "false" and no other one is touched. |
| OutboundQueue.Session.SettleDrainWaiters | apps/backend/src/lib/ai/audiosocket.ts:1054-1065 | Every pending waiter gets the one answer, and none already settled gets another. |
| OutboundQueue.Session.Hangup | apps/backend/src/lib/ai/audiosocket.ts:847-865 | The queue is abandoned, the waiters are told "false", and one TERMINATE goes out when the socket can take it. |
| OutboundQueue.Session.MarkClosed | apps/backend/src/lib/ai/audiosocket.ts:1040-1047 | A closed session has no queue and no pending waiter, and its frames count as abandoned. |
| OutboundQueue.Session.EmitOneFrame | apps/backend/src/lib/ai/audiosocket.ts:978-1026 | A slot writes exactly one frame, the oldest queued or silence, unless closed or under backpressure, when it changes nothing; emptying the queue tells the waiters "true". |
| Pacer.RateBound | apps/backend/src/lib/ai/audiosocket.ts:934-975 | With a monotone clock and timers that never fire early, any window of T ms holds at most floor(T/20) + 6 ticks. |
| Pacer.RateBoundTight | apps/backend/src/lib/ai/audiosocket.ts:86 | For every T a permitted run reaches that bound. |
| Pacer.NoDriftExactly | apps/backend/src/lib/ai/audiosocket.ts:934-975 | Slots are the first plus 20 ms each if and only if the lag has never exceeded the slip limit. |
| Pacer.LagExactly | apps/backend/src/lib/ai/audiosocket.ts:952-975 | A lag above the slip limit is forgiven to one frame ahead of the clock; below it the slot grid is kept. |
| Pacer.TicksApart | apps/backend/src/lib/ai/audiosocket.ts:952-975 | Two ticks k apart are at least 20k less 100 ms apart in time. |
| Pacer.PacingClock.StartPacing | apps/backend/src/lib/ai/audiosocket.ts:934-941 | Starting arms the first slot 20 ms ahead, and starting twice or on a closed session changes nothing. |
| Pacer.PacingClock.TimerFires | apps/backend/src/lib/ai/audiosocket.ts:952-975 | A fired timer adds one tick for the slot it was armed for, moves the slot on or re-anchors it, and arms the next. |
| VoiceActivity.VoicedExactly | apps/backend/src/lib/ai/audiosocket.ts:632-682 | A frame is reported voiced if and only if it is loud and enough loud frames, itself included, have come since the last gap. |
| VoiceActivity.CountersTrackRun | apps/backend/src/lib/ai/audiosocket.ts:656-682 | The loud counter is the number of loud frames since the last gap and the quiet counter the length of the trailing silence, after every call. |
| VoiceActivity.NoiseBounds | apps/backend/src/lib/ai/audiosocket.ts:632-654 | The noise estimate stays between the minimum and the larger of the minimum and the loudest frame so far. |
| VoiceActivity.FirstFrameSeeds | apps/backend/src/lib/ai/audiosocket.ts:641-646 | The first frame seeds the estimate with its own level and is never loud. |
| VoiceActivity.ConstantLevelApproach | apps/backend/src/lib/ai/audiosocket.ts:452-462 | Under a constant level the estimate falls short of it by no more than the decayed level, after any history. |
| VoiceActivity.ConstantLevelAbsorbed | apps/backend/src/lib/ai/audiosocket.ts:452-462 | Once the decay is small enough for the ratio, a constant level is not loud, and stays so for as long as it lasts. |
| VoiceActivity.ConstantLevelAbsorbedByDefault | apps/backend/src/lib/ai/audiosocket.ts:437-462 | At the ratio of 2.5 that takes at most 256 frames. |
| VoiceActivity.ConstantLevelLoudExactly | apps/backend/src/lib/ai/audiosocket.ts:641-654 | From any estimate not above it, a constant level is still loud after k frames if and only if it clears the floor and what the decay leaves of the gap clears the ratio. |
| VoiceActivity.FiveSecondsAreTooShort | apps/backend/src/lib/ai/audiosocket.ts:452-462 | With the defaults a full-scale tone after one silent frame is still loud after 250 frames, which are five seconds. |
| VoiceActivity.QuieterLevelNoise | apps/backend/src/lib/ai/audiosocket.ts:652-654 | Under a constant level below it the estimate loses a quarter of its excess a frame, down to the minimum. |
| VoiceActivity.SettlesInFourFrames | apps/backend/src/lib/ai/audiosocket.ts:455 | Four quiet frames, 80 ms, leave less than a third of the excess. |
| VoiceActivity.StatisticsExactly | apps/backend/src/lib/ai/audiosocket.ts:617-629 | The statistics count the frames, the loud ones and the reported ones. |
| VoiceActivity.PeakExactly | apps/backend/src/lib/ai/audiosocket.ts:637-639 | The peak is the loudest level so far. |
| VoiceActivity.CallerVoiceActivity.Measure | apps/backend/src/lib/ai/audiosocket.ts:632-682 | Measuring a frame yields what the specification reports for the calls so far, and moves the last-voice time exactly when voiced. |
| VoiceActivity.CallerVoiceActivity.Push | apps/backend/src/lib/ai/audiosocket.ts:575-598 | Audio of any length is measured frame by frame, none skipped, the rest held back; the answer is whether any of these frames was voiced. |
| GateProtocol.SingleFlightHolds | apps/backend/src/lib/ai/openai-realtime.ts:2856-2939 | Along every fair run a response.create finds the server idle, and an active response and an awaited one never hold together. |
| GateProtocol.FairRunsSeeNoConflict | apps/backend/src/lib/ai/openai-realtime.ts:2213-2222 | On a fair run the server never answers with a conflict. |
| GateProtocol.FairStepKeepsInv | apps/backend/src/lib/ai/openai-realtime.ts:2421-2495 | Requests, barge-ins, cancels, completions, late done events, closes and reconnects, and the fair among expiries, losses and server starts, keep the protocol's invariant. |
| GateProtocol.StepSafeExactly | apps/backend/src/lib/ai/openai-realtime.ts:2856-2939 | Fairness is the exact condition: a step from the invariant keeps single flight in every fair continuation if and only if it is fair. |
| GateProtocol.ExpirySafeExactly | apps/backend/src/lib/ai/openai-realtime.ts:2895-2912 | A timer expiry keeps single flight in every fair continuation if and only if no response.create and no answer to one is on the way. |
| GateProtocol.ExpiryCollides | apps/backend/src/lib/ai/openai-realtime.ts:2895-2939 | Otherwise a second create follows, and a fair continuation brings one of the two before a busy server. |
| GateProtocol.ExpiryCollidesAtOnce | apps/backend/src/lib/ai/openai-realtime.ts:2895-2939 | The expiry itself does so exactly when it flushes a turn as the only message of an open socket while a response unknown to the client runs. |
| GateProtocol.ServerStartSafeExactly | apps/backend/src/lib/ai/openai-realtime.ts:2213-2222 | A response the server starts keeps single flight in every fair continuation if and only if the gate awaits an answer that is not on the way. |
| GateProtocol.ServerStartCollides | apps/backend/src/lib/ai/openai-realtime.ts:2213-2222 | Otherwise a fair continuation has a create meet that response. |
| GateProtocol.ServerStartCollidesAtOnce | apps/backend/src/lib/ai/openai-realtime.ts:2213-2222 | It meets one at once exactly when a create is the only message on the way up. |
| GateProtocol.LossCollides | apps/backend/src/lib/ai/openai-realtime.ts:2890-2912 | Losing the only word of a running response, or its id, lets the client ask again while it runs. |
| GateProtocol.ExpiryCollidesRun | apps/backend/src/lib/ai/openai-realtime.ts:2895-2939 | A run from the start collides by an expiry that flushes a queued turn. |
| GateProtocol.ExpiryCollidesLaterRun | apps/backend/src/lib/ai/openai-realtime.ts:2895-2939 | Another has nothing queued at the expiry and collides at the next request. |
| GateProtocol.ServerStartCollidesRun | apps/backend/src/lib/ai/openai-realtime.ts:2213-2222 | A response the server starts and one request collide from the initial state. |
| GateProtocol.NoStrandedTurn | apps/backend/src/lib/ai/openai-realtime.ts:2890-2912 | In every reachable state, whatever is lost but ids, a live session's queued turn has an active response or an armed timer. |
| GateProtocol.StepKeepsGate | apps/backend/src/lib/ai/openai-realtime.ts:2421-2460 | Every single step keeps that, a response.created without an id excepted, and keeps an active response and an awaited one apart. |
| GateProtocol.EmptyIdStrands | apps/backend/src/lib/ai/openai-realtime.ts:2477-2495 | A response.created keeps that if and only if it carries an id, no turn waits, or the caller is speaking. |
| GateProtocol.EmptyIdStrandsRun | apps/backend/src/lib/ai/openai-realtime.ts:2477-2495 | A run from the start strands a turn by a response.created that lost its id. |
| GateProtocol.QueuedTurnCanMove | apps/backend/src/lib/ai/openai-realtime.ts:2782-2822 | Unless an id or a response.done is lost, a queued turn has an armed timer, or an active response that still runs or whose end is on the way. |
| GateProtocol.LostEventExactly | apps/backend/src/lib/ai/openai-realtime.ts:2890-2893 | A lost event breaks that exactly when it is the response.done of the active response. |
| GateProtocol.LostDoneStrandsRun | apps/backend/src/lib/ai/openai-realtime.ts:2890-2893 | After such a loss a run ends with a queued turn, an idle server, no timer and nothing on the way. |
| GateProtocol.ExpiryLeavesActive | apps/backend/src/lib/ai/openai-realtime.ts:2895-2912 | With a response active an expiry only disarms the timer. |
| GateProtocol.QueuedTurnLeaves | apps/backend/src/lib/ai/openai-realtime.ts:2421-2460 | A queued turn leaves if and only if a newer request replaces it, a barge-in, cancel, close or stop drops it, or it is flushed. |
| GateProtocol.FlushedTurnIsSent | apps/backend/src/lib/ai/openai-realtime.ts:2922-2939 | A flushed turn is sent exactly when the socket is open; on a closed one it is lost. |
| GateProtocol.ClosedSocketLosesTurn | apps/backend/src/lib/ai/openai-realtime.ts:2922-2939 | A run from the start loses a turn that way while the socket is down. |
| GateProtocol.QueuedTurnMoves | apps/backend/src/lib/ai/openai-realtime.ts:2922-2939 | The end of the active response flushes it, and so does the timer once nothing is active, socket open or not. |
| GateProtocol.SpeakingExactly | apps/backend/src/lib/ai/openai-realtime.ts:2275-2277 | Along every run the gate takes the caller to be speaking exactly from a speech start until the caller stops, the socket closes or the session stops. |
| GateProtocol.CreatedWhileSpeaking | apps/backend/src/lib/ai/openai-realtime.ts:2477-2495 | A response created meanwhile is never active: an open socket is handed its cancel at once. Otherwise it becomes the active one and nothing is sent. |
| GateProtocol.BargeInExactly | apps/backend/src/lib/ai/openai-realtime.ts:2289-2328 | A speech start abandons the turn exactly when a response is active or audible and nothing suppresses it. |
| GateProtocol.AbandonSilences | apps/backend/src/lib/ai/openai-realtime.ts:2421-2460 | An abandonment cancels the active response on an open socket and leaves nothing active, queued, timed or playing. |
| GateProtocol.SuppressionStep | apps/backend/src/lib/ai/openai-realtime.ts:2788-2795 | The end of any response lifts the suppression, and nothing else does. |
| GateProtocol.BargeInByDefault | apps/backend/src/lib/ai/openai-realtime.ts:2404-2407 | A run that never suppresses barge-in always has it. |
| GateProtocol.TimerRunsForSomething | apps/backend/src/lib/ai/openai-realtime.ts:2895-2919 | In every reachable state a running timer has an awaited answer or a queued turn behind it. |
| GateProtocol.CreateIsTimed | apps/backend/src/lib/ai/openai-realtime.ts:2882-2886 | A response.create is sent only with the timer running and its answer awaited. |
| GateProtocol.RequestWaitsExactly | apps/backend/src/lib/ai/openai-realtime.ts:2869-2887 | A request on a busy gate waits in the queue in place of any before it; on an idle one it goes out. |
| GateProtocol.ConflictRequeues | apps/backend/src/lib/ai/openai-realtime.ts:2213-2222 | A refused create is awaited no longer, and its turn, or a newer one, is queued under the timer. |
| GateProtocol.CloseStartsAfresh | apps/backend/src/lib/ai/openai-realtime.ts:1558-1583 | A closed socket, like a stop, leaves the gate as new but for what was heard, abandoned and suppressed. |
| GateProtocol.StopCancelsOnce | apps/backend/src/lib/ai/openai-realtime.ts:1408-1426 | A stop cancels the active response on an open socket, and a second stop does nothing. |
| ResponseGate.RealtimeProvider.RequestResponse | apps/backend/src/lib/ai/openai-realtime.ts:2869-2887 | The request is sent, queued with the timer armed, or ignored, as the gate step says; the socket gets exactly the step's messages. |
| ResponseGate.RealtimeProvider.FlushPendingResponse | apps/backend/src/lib/ai/openai-realtime.ts:2922-2939 | A queued turn goes out exactly when the gate is clear. |
| ResponseGate.RealtimeProvider.TimerFired | apps/backend/src/lib/ai/openai-realtime.ts:2895-2912 | The expiry reopens an awaiting gate and flushes. |
| ResponseGate.RealtimeProvider.AbandonCurrentResponse | apps/backend/src/lib/ai/openai-realtime.ts:2421-2475 | The horizon, the queued turn and the timer are cleared, the audible response's id is remembered, and a cancel goes out for an active response. |
| ResponseGate.RealtimeProvider.HandleResponseCreated | apps/backend/src/lib/ai/openai-realtime.ts:2477-2495 | The response becomes active and is abandoned at once when the caller is speaking. |
| ResponseGate.RealtimeProvider.HandleResponseDone | apps/backend/src/lib/ai/openai-realtime.ts:2782-2822 | Only the active response's id clears it, and a queued turn is flushed. |
| ResponseGate.RealtimeProvider.HandleSpeechStarted | apps/backend/src/lib/ai/openai-realtime.ts:2275-2330 | A barge-in abandons the turn when one is active or still audible, unless suppressed. |
| ResponseGate.RealtimeProvider.HandleConflictError | apps/backend/src/lib/ai/openai-realtime.ts:2213-2222 | A conflict reopens the gate and re-queues a turn with the timer armed. |
| ResponseGate.RealtimeProvider.HandleClose | apps/backend/src/lib/ai/openai-realtime.ts:1558-1583 | A closed socket clears the gate, the queue, the timer and the horizon. |
| ResponseGate.RealtimeProvider.Stop | apps/backend/src/lib/ai/openai-realtime.ts:1408-1453 | Stopping cancels an active response once and clears the gate for good. |
| ResponseGate.RealtimeProvider.HandleOutputAudioDelta | apps/backend/src/lib/ai/openai-realtime.ts:2497-2532 | Audio of an abandoned response and empty audio change nothing; other audio extends the horizon by its duration. |
| Playback.HorizonIsLatestFinish | apps/backend/src/lib/ai/openai-realtime.ts:2522-2528 | The horizon is the maximum over i of the arrival of chunk i plus all durations from i on. |
| Playback.StillAudibleExactly | apps/backend/src/lib/ai/openai-realtime.ts:2289 | "Still audible" holds exactly when an ideal real-time player has audio left, and the lead is how much. |
| Playback.LevelIsLead | apps/backend/src/lib/ai/openai-realtime.ts:2522-2528 | Right after a chunk the player's backlog is the horizon less the chunk's arrival. |
| Playback.ProviderKeepsHorizon | apps/backend/src/lib/ai/openai-realtime.ts:2421-2435 | From an abandonment on the provider's horizon is that of exactly the deliveries that are neither empty nor of an abandoned response. |
| Playback.StartKeepsHorizon | apps/backend/src/lib/ai/openai-realtime.ts:2522-2528 | The same holds from the start of a session. |
| Playback.LastHeardIsAbandoned | apps/backend/src/lib/ai/openai-realtime.ts:2421-2428 | With no response active an abandonment cuts off the one last heard by name. |
| Playback.AbandonedIsRemembered | apps/backend/src/lib/ai/openai-realtime.ts:2462-2475 | An abandonment remembers the audible response's id, as the newest one or in the place it had. |
| Playback.AbandonedAudioIsDiscarded | apps/backend/src/lib/ai/openai-realtime.ts:2506-2510 | Late audio of an abandoned response changes nothing while the ids after it in the memory and those abandoned since are fewer than sixteen. |
| Playback.AbandonedIsForgotten | apps/backend/src/lib/ai/openai-realtime.ts:2462-2475 | Once they are sixteen distinct ones, it is forgotten. |
| BoundedMemory.RememberInPlace | apps/backend/src/lib/ai/openai-realtime.ts:2462-2475 | Insertion followed by the eviction loop is the bounded-memory step. |
| BoundedMemory.RememberKeepsOrder | apps/backend/src/lib/ai/turn-transcript.ts:326-344 | The memory keeps distinct ids with the newest last. |
| BoundedMemory.StaysRemembered | apps/backend/src/lib/ai/turn-transcript.ts:74-75 | An entry is still remembered while fewer than the cap are newer. |
| BoundedMemory.RememberAllIsLast | apps/backend/src/lib/ai/turn-transcript.ts:326-344 | Distinct new entries leave exactly the last of all, as many as the cap. |
| TurnTranscript.SilentUntilEightMore | apps/backend/src/lib/ai/turn-transcript.ts:43-45 | In any run, a call naming a finalised id changes nothing and emits nothing until eight further ids have been finalised. |
| TurnTranscript.RunInvariant | apps/backend/src/lib/ai/turn-transcript.ts:326-344 | In any run the open turn's id is not among the finalised ones, and those are the last eight distinct ids finalised. |
| TurnTranscript.OutputsAreOfOpenIds | apps/backend/src/lib/ai/turn-transcript.ts:150-236 | Whatever is emitted is for an id not finalised; an interim leaves its turn open, a final closes it and records the id. |
| TurnTranscript.EndsInOneFinalExactly | apps/backend/src/lib/ai/turn-transcript.ts:37-41 | A turn with text ends in its one final line if and only if the call ending it does not name a different id. |
| TurnTranscript.TranscriptWins | apps/backend/src/lib/ai/turn-transcript.ts:184-215 | In any run a transcript with text is the line, trimmed, capped and trimmed, whatever the turn has accumulated; only a finalised id, or a second nameless finalisation, is silent. |
| TurnTranscript.DeltasAreTheLine | apps/backend/src/lib/ai/turn-transcript.ts:207-236 | Without one the line of the open turn is the capped sum of its deltas, treated the same way. |
| TurnTranscript.BlankForAnotherIsSilent | apps/backend/src/lib/ai/turn-transcript.ts:184-215 | A call without text for another turn emits nothing, never the open turn's text. |
| TurnTranscript.NamelessExactly | apps/backend/src/lib/ai/turn-transcript.ts:326-344 | A nameless turn counts as closed exactly while it was the last one closed. |
| TurnTranscript.TurnCanBeDropped | apps/backend/src/lib/ai/turn-transcript.ts:250-278 | A first delta of a second response drops the first turn without a final line. |
| TurnTranscript.LineIsEmptyExactly | apps/backend/src/lib/ai/turn-transcript.ts:318-324 | Trimming and capping lose a whole line only when it was blank or the cap is zero. |
| Text.TrimExactly | apps/backend/src/lib/ai/turn-transcript.ts:318-324 | Trimming cuts off all blanks at both ends and nothing else. |
| Text.BlankExactly | apps/backend/src/lib/ai/turn-transcript.ts:318-324 | A blank is white space or a line terminator as ECMA-262 lists them. |
| TurnTranscript.InterimsArePrefix | apps/backend/src/lib/ai/turn-transcript.ts:27-33 | The interim fragments of a turn concatenate to a prefix of its deltas' capped concatenation, which is the turn's text. |
| TurnTranscript.InterimExactly | apps/backend/src/lib/ai/turn-transcript.ts:150-174 | A delta goes out, with all that waits, exactly when the turn was below its cap, something waits, and it is the first fragment or inside the window and an interval after the last. |
| TurnTranscript.TurnInvariant | apps/backend/src/lib/ai/turn-transcript.ts:287-315 | In any run, fragments plus pending text are the open turn's text, and fragments are spaced by the interval and all inside the window. |
| TurnTranscript.InterimCount | apps/backend/src/lib/ai/turn-transcript.ts:287-306 | At most max(1, ceil(window/interval)) fragments a turn. |
| TurnTranscript.InterimCountByDefault | apps/backend/src/lib/ai/turn-transcript.ts:62-69 | With the defaults, at most 6. |
| TurnTranscript.TurnTranscriptStream.PushDelta | apps/backend/src/lib/ai/turn-transcript.ts:150-174 | A delta of a finalised id is dropped; otherwise the turn takes what fits and emits its pending text when it may. |
| TurnTranscript.TurnTranscriptStream.Finalise | apps/backend/src/lib/ai/turn-transcript.ts:184-215 | A finalised id is closed with the given transcript or the text accumulated for it, once. |
| TurnTranscript.TurnTranscriptStream.Abandon | apps/backend/src/lib/ai/turn-transcript.ts:226-236 | The open turn is closed with what was said. |
| TurnTranscript.TurnTranscriptStream.TakeInterim | apps/backend/src/lib/ai/turn-transcript.ts:287-306 | Pending text goes out first at once, then at most once an interval and only inside the window. |
| AmiStream.ReadChunks | apps/backend/src/lib/asterisk/ami-client.ts:482-512 | However the stream is cut, even inside a separator, the packets handled are those of the whole stream after the optional banner. |
| AmiStream.SplittingIsExact | apps/backend/src/lib/asterisk/ami-client.ts:501-511 | The packet texts with their separators and the remainder are the stream, and the remainder holds no separator. |
| AmiStream.SplittingResumes | apps/backend/src/lib/asterisk/ami-client.ts:501-511 | Splitting the remainder followed by more text continues the split of the whole stream. |
| AmiStream.BodyResumes | apps/backend/src/lib/asterisk/ami-client.ts:485-499 | Once the first line is complete, what counts as banner and as packets no longer depends on what follows. |
| AmiStream.BannerExactly | apps/backend/src/lib/asterisk/ami-client.ts:485-499 | The first line is dropped, and kept as the banner, exactly when it starts with the product's name. |
| AmiStream.SkippedExactly | apps/backend/src/lib/asterisk/ami-client.ts:506-508 | A text between separators is skipped exactly when it is all blanks. |
| AmiStream.NoColonNoField | apps/backend/src/lib/asterisk/ami-client.ts:521-524 | A line without a colon adds no field. |
| AmiStream.BlankKeyNoField | apps/backend/src/lib/asterisk/ami-client.ts:526-530 | Nor does one with only blanks before its colon. |
| AmiStream.AmiReader.OnData | apps/backend/src/lib/asterisk/ami-client.ts:482-512 | After each chunk the buffer and the packets handled are those of all text received so far. |
| AmiStream.DispatchedParsesBack | apps/backend/src/lib/asterisk/ami-client.ts:600-604 | A written action, whatever its parameter values, is exactly one packet whose fields are those of its parameters, with nothing left over. |
| AmiStream.FieldsMean | apps/backend/src/lib/asterisk/ami-client.ts:514-539 | With distinct keys, each parameter's field is its sanitised, trimmed value. |
| AmiStream.FieldsCollect | apps/backend/src/lib/asterisk/ami-client.ts:533-535 | Every field is exactly the values given to its key, in order, one a line. |
| AmiStream.NoOtherFields | apps/backend/src/lib/asterisk/ami-client.ts:514-539 | The parameters add no field but their own and leave the others alone. |
| AmiStream.FieldsRead | apps/backend/src/lib/asterisk/ami-client.ts:514-539 | Parsing the lines of any parameters collects exactly their values, repeated keys joined by line breaks. |
| AmiStream.LinesOfJoin | apps/backend/src/lib/asterisk/ami-client.ts:517 | Splitting joined lines without line breaks gives the lines back. |
| AmiStream.OnePacket | apps/backend/src/lib/asterisk/ami-client.ts:600-604 | Lines that are non-empty and unbroken hold no separator, so their payload is one packet. |
| AmiStream.SanitisedIsUnbroken | apps/backend/src/lib/asterisk/ami-client.ts:123-126 | A sanitised value holds no line break. |
| AmiStream.SanitisedRun | apps/backend/src/lib/asterisk/ami-client.ts:123-126 | A whole run of line breaks becomes one space, and the rest of the value stays. |
| AmiActions.ActionsAreIndependent | apps/backend/src/lib/asterisk/ami-client.ts:541-586 | Under every interleaving the progress and the result of an action are those of its own inputs alone. |
| AmiActions.SameResult | apps/backend/src/lib/asterisk/ami-client.ts:541-553 | Two runs that agree on an action's own inputs agree on the action. |
| AmiActions.SettlesOnce | apps/backend/src/lib/asterisk/ami-client.ts:635-651 | A settled action keeps its first result whatever follows, and is never pending again. |
| AmiActions.PacketSettles | apps/backend/src/lib/asterisk/ami-client.ts:555-586 | Under every interleaving the first packet that neither announces a list nor is a list event settles the action: an error in any letter case rejects, another response resolves with itself, a terminator with the latest response; the events are exactly those before, in order. |
| AmiActions.ListResolves | apps/backend/src/lib/asterisk/ami-client.ts:555-586 | A list response, any events and the terminator resolve the action with exactly those events. |
| AmiActions.CutShort | apps/backend/src/lib/asterisk/ami-client.ts:608-657 | A timeout, a failed write or a closed connection that comes first rejects it accordingly. |
| AmiActions.StillWaits | apps/backend/src/lib/asterisk/ami-client.ts:555-586 | Until then it waits, with the events and the latest response so far. |
| AmiActions.ListenersGetUnclaimed | apps/backend/src/lib/asterisk/ami-client.ts:541-553 | The listeners get exactly the events that name no waiting action, in order. |
| AmiActions.DispatchNamesAction | apps/backend/src/lib/asterisk/ami-client.ts:597-604 | What an action is written with is the id its answers are matched by. |
| AmiActions.MentionsExactly | apps/backend/src/lib/asterisk/ami-client.ts:559-568 | A field mentions a word exactly when the word stands somewhere in it, in any letter case. |
| AmiActions.AmiClient.HandlePacket | apps/backend/src/lib/asterisk/ami-client.ts:541-553 | A packet goes to the pending action it names, an unclaimed event to the listeners. |
| AmiActions.AmiClient.ApplyToPending | apps/backend/src/lib/asterisk/ami-client.ts:555-586 | A response settles, rejects or opens a list; list events are collected until the terminator. |
| AmiActions.AmiClient.Settle | apps/backend/src/lib/asterisk/ami-client.ts:635-651 | Settling moves the action from pending to results, and does nothing when it is no longer pending. |
| AmiActions.AmiClient.FailPending | apps/backend/src/lib/asterisk/ami-client.ts:653-657 | A dropped connection rejects everything in flight and nothing else. |
| Price.CellsKeepCacheMarginals | apps/backend/src/lib/ai-cost/price.ts:356-402 | Measured and apportioned input cells are non-negative, keep the fresh and the cached marginal and sum to the prompt. |
| Price.ColdCellsSum | apps/backend/src/lib/ai-cost/price.ts:377-389 | Cold cells are non-negative, all fresh, and sum to the larger of the prompt and the reported modalities. |
| Price.CellsSumToPromptExactly | apps/backend/src/lib/ai-cost/price.ts:356-402 | The cells sum to the prompt if and only if the row is not a cold one whose modalities exceed it. |
| Price.ExactCellsAreReported | apps/backend/src/lib/ai-cost/price.ts:319-327 | An exact split has audio and text cells adding up to the reported modality counts. |
| Price.CountExactly | apps/backend/src/lib/ai-cost/price.ts:211-213 | A counter reads as reported, and as nothing when missing or negative. |
| Price.ExactExactly | apps/backend/src/lib/ai-cost/price.ts:298-317 | A split is exact if and only if its cells were reported consistently, or the cache is cold and nothing is left over. |
| Price.ReportedCellsAreUsed | apps/backend/src/lib/ai-cost/price.ts:362-373 | Consistent cells are used as reported and the fresh ones make up the modalities. |
| Price.WarmCellsAreProportional | apps/backend/src/lib/ai-cost/price.ts:391-401 | Otherwise a warm row is split in the proportion of its modalities, all audio when there are none. |
| Price.ColdCellsAreReported | apps/backend/src/lib/ai-cost/price.ts:377-389 | A cold row keeps its audio and charges what is left of the prompt as text. |
| Price.DisplayedCellsSum | apps/backend/src/lib/ai-cost/price.ts:485-488 | The two displayed cells of a cache marginal sum to it, or to one more exactly on a tie; on a cold row they sum to the larger of the prompt and the modalities. |
| Price.DisplayedCellsCanOvershoot | apps/backend/src/lib/ai-cost/price.ts:485-488 | A row exists on which the displayed fresh cells exceed the fresh tokens. |
| Price.OutputSumsExactly | apps/backend/src/lib/ai-cost/price.ts:404-422 | The output cells sum to the completion if and only if it was reported so or not split at all. |
| Price.OutputAssumedExactly | apps/backend/src/lib/ai-cost/price.ts:417-419 | A completion is taken to be all audio exactly when neither output modality was reported. |
| Price.OutputCanFallShort | apps/backend/src/lib/ai-cost/price.ts:404-422 | A row exists on which they do not. |
| Price.TotalIsSumOfLines | apps/backend/src/lib/ai-cost/price.ts:619-651 | The final rounding changes nothing: the total is the sum of the rounded lines, within 1.5 millionths of the unrounded sum. |
| Price.UnknownIsNull | apps/backend/src/lib/ai-cost/price.ts:425-446 | A cost is missing exactly when a reason is given, and the total with it. |
| Price.ReasonExactly | apps/backend/src/lib/ai-cost/price.ts:425-446 | Each reason is given exactly when it is the first to apply: nothing used, no cache split, another provider, no rates. |
| Price.ChargedAtOwnRates | apps/backend/src/lib/ai-cost/price.ts:85-95 | A priced session is charged at its own provider's rates. |
| Price.FlagsExactly | apps/backend/src/lib/ai-cost/price.ts:453-475 | A price is estimated exactly when a cell was apportioned or a modality assumed, and a total partial exactly when the transcription or the analysis was never recorded. |
| Price.InputTokenCosts | apps/backend/src/lib/ai-cost/price.ts:460-465 | No tokens cost nothing, and one more token of an input cell costs exactly that cell's rate per million. |
| Price.OutputTokenCosts | apps/backend/src/lib/ai-cost/price.ts:467-469 | One more output token costs exactly its modality's rate. |
| Price.VoiceTokenCosts | apps/backend/src/lib/ai-cost/price.ts:460-472 | Input and output add up: one more reported output token costs its rate whatever the input. |
| Price.TranscriptionTokenCosts | apps/backend/src/lib/ai-cost/price.ts:531-533 | One more transcription token costs exactly its modality's rate. |
| Price.AnalysisTokenCosts | apps/backend/src/lib/ai-cost/price.ts:581-587 | One more analysis token costs its rate; caching one saves the difference of the rates, and no more are cached than prompted. |
| Price.RoundMoneyNear | apps/backend/src/lib/ai-cost/price.ts:37-39 | A rounded amount is within half a millionth. |
| UsageDelta.DeltasTelescope | apps/backend/src/lib/ai/gemini-live.ts:1481-1506 | Each counter's deltas sum to the last report before the first decrease of any counter plus every report from it on. |
| UsageDelta.DeltaNonNegative | apps/backend/src/lib/ai/gemini-live.ts:1473-1480 | On non-negative reports every reported delta is non-negative. |
| UsageDelta.MonotoneRunSumsToLast | apps/backend/src/lib/ai/gemini-live.ts:1473-1480 | A run in which no counter is ever below the report before it sums to its last report and stays cumulative. |
| UsageDelta.PerMessageExactly | apps/backend/src/lib/ai/gemini-live.ts:1486-1495 | Reports are taken to be per message exactly once some counter has been strictly below the report before it. |
| UsageDelta.DeltaExactly | apps/backend/src/lib/ai/gemini-live.ts:1481-1506 | The newest report is charged in full exactly from then on, and before that for what it adds. |
| UsageDelta.NeverMoreThanReported | apps/backend/src/lib/ai/gemini-live.ts:1481-1506 | No run is charged more than the total of its reports. |
| UsageDelta.FirstDecreaseIsFirst | apps/backend/src/lib/ai/gemini-live.ts:1486 | The index is the first at which any counter is below the report before it. |
| UsageDelta.UsageTracker.ResolveUsageDelta | apps/backend/src/lib/ai/gemini-live.ts:1481-1506 | One report yields the specified delta and tracker state in all three branches. |

## Left out

- Floating point: rounding, the drift of the limiter's running sum, biquad precision and non-finite samples, since samples and gains are exact reals.
- FIR and biquad coefficient design and decibel conversion, which need transcendental functions: the coefficients and the conversion are parameters.
- The 0.2 to 1 dB the decimating filter can add after the limiter is a measurement; `Resampler.DotBound` is the bound the code does give.
- A look-ahead of 1, for which the program's slot arithmetic does not hold; the program uses 48.
- G.711 mu-law coding of single samples, a finite table.
- The square root of `slinRms`: each frame has an abstract non-negative level, which the detector is given as a function.
- VoiceChain.AgentVoiceChain.Process: the staging buffer is built as a sequence before it is handed to the decimator, so the in-place write into it is not modelled.
- Error reports, log lines, timing statistics and the detector's statistics and elapsed-time queries, which decide nothing.
- Pacer.PacingClock.TimerFires: the clock and the frame queue are separate objects here, so the frame a tick emits is stated in `OutboundQueue.Session.EmitOneFrame`.
- Session and server life cycle around the state modelled: accepting sockets, binding, stopping the server.
- Responses asked for by tool acknowledgements, spoken lines and the barge-in recovery timer are requests at arbitrary moments of a run.
- Reconnect back-off, terminal account errors, session updates and their degradation; a reconnect is a step that reopens the socket.
- Response ids are numbers and a new response has a new one; an event on the wire can lose its id.
- Whether and when someone hangs up a session is an arbitrary schedule over the packets of the connection.
- Speech transcripts' routing into the two streams, and the echo check before it.
- TurnTranscript.SilentUntilEightMore: a reset starts a new run.
- Texts are sequences of characters, and letter case in AMI fields is ASCII.
- AMI login, reconnect, listener registration and dispatch without a socket; field names that collide with JavaScript's object prototype.
- AmiActions.SettlesOnce: action ids are taken to be fresh, as the counter in them makes them.
- AmiStream.DispatchedParsesBack: keys are non-empty, trimmed and without colon or line break, as the literals in the program are.
- Price: the display-only numbers of a breakdown other than its token cells, currency conversion and cost per minute.
- Gemini's mapping of a usage report to its seven counters, and everything else of that provider.
- Campaigns, orchestration, knowledge search, routes, storage and the frontend.
