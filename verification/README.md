# Voice kit verification

A Dafny model of the state-heavy components of the ESP32 voice kit firmware, with proofs of what they keep.
`dafny verify dfyconfig.toml` checks the whole project.

## What is modelled

**Two-thread PCM playback** (`Playback*.dfy`). The Arduino loop and the pinned playback task are two program
counters over the shared atomics and a bounded stream buffer; one step is one atomic access, one stream-buffer
call or one I2S write. A run is any schedule of such steps. History fields, read by no step, record the bytes
accepted and played and drive the buffering policy with the same events. `PlaybackCalls.dfy` runs one operation
from its call to its return inside any interleaving.

**The composed turn runtime** (`VoiceTurn.dfy`, `RealtimeTransport.dfy`, `SessionProtocol.dfy`, `Turn*.dfy`,
`VoiceRuntime.dfy`). `loop()` is one function of the runtime's state and of what the environment did since the last
loop: Wi-Fi, clock, server, button, codec and bus, and how the playback task and each call on the player interleave.
The player inside it is the two-thread machine. The classes carry the firmware's fields and are tied to that
function. `millis()` is the low 32 bits of real time, sampled once a loop.

**WebSocket framing** (`WebSocket*.dfy`). Header creation and masking in place on byte buffers, the three ways a
frame is sent, and the receive path that starts again from the first header octet each time more of the header
has arrived. It is proved against a parser that reads straight through.

**Configuration** (`DeviceConfig*.dfy`, `ConfigStore.dfy`). The tag-length-value form and its decoder, and the
two-slot store with power lost between any two flash operations and anything left behind by a failed write.

**SHA-1** (`Sha1*.dfy`). The definition of FIPS 180-4 with its worked example, and the library's streaming context
with its in-place sixteen-word schedule, on 32-bit words.

**Text codecs** (`Base64*.dfy`, `Json*.dfy`, `RealtimeMessages.dfy`, `TtsStream.dfy`, `TtsParsers.dfy`).
Base64 in one piece and as resumable coroutines, JSON strings and the first-match search, and the chunk-fed
event-stream parser. Text is a sequence of octets.

What a standard or a format demands is written out apart from the code's own helpers (`WebSocketStandard.dfy`,
`Base64Standard.dfy`, `JsonStandard.dfy`, `DeviceConfigLayout.dfy`, `Sha1Example.dfy`): literal alphabets, opcodes,
thresholds and bit patterns, to which the model is then related both ways.

## What the code does not promise

Where the code and what it is for part, the code is kept and a concrete input or run is given; each item names the
member that says exactly when the promise is kept.

- The exit at lines 160-161 of `buffered_pcm_playback.h` may report a drained turn with bytes unplayed, when the
  sample of line 155 is older than the last send and the input finishes in between (`EarlyDrainRace`). The runtime
  then completes a turn of which nothing was heard (`UnplayedCompletion`). `DrainSoundness` and
  `CompletionsAreProper` say exactly when a drained or completed turn has played everything.
- `busy_` does not cover everything the playback task still does for an earlier turn, and `cancel()` stops waiting
  for it after 150 looks. A turn whose input line 47 opens while the task is in the stores of lines 142-144 or past
  the `input_done_` load of line 178 or 196 is drained or ended early; in the stores of lines 190-192, or with a
  short write behind it, it is failed; with a chunk in hand at lines 172-187, it plays bytes of the earlier turn.
  Each of these is reached (`OpensOverDrain`, `OpensOverFailure`, `OpensOverWrite`, `StaleTurnRace`). From every
  other position the turn keeps its promises, whatever happens until the next one begins (`StartsSoundlyExactly`).
- `finishRecording` ignores whether the mute of a cancelled recording was sent. If it was not and the socket is
  still up, the connection stays unmuted, and the next unmute breaks the order of its messages
  (`LostMuteBreaksOrder`). With one session announced a connection, nothing else ever breaks it, and between
  recordings a ready connection is muted exactly when no mute was lost on it (`OutboundOrder`).
- Reply audio during a recording takes the bus from the microphone, and `serviceRecording` then no longer looks at
  the clock: such a recording is reached (`InterruptedRun`) and can last any time, while any other ends within ten
  seconds and a loop (`RecordingOverdueExactly`, `BoundedStay`).
- `createHeader` writes a payload of 65535 bytes with the ten-byte header, although section 5.2 of RFC 6455
  demands the shortest one, which every other length gets (`LengthFieldMinimal`).
- A valid configuration whose encoding is over 8192 bytes is applied but read back as none
  (`OversizedConfig`, `RoundTrip`, `CrashSafety`); one that came from a payload never is (`ProvisionedSurvives`).
- `parseConfigUnsigned` lets numbers over a maximum below 9 through, because its difference wraps; from 9 up it
  accepts exactly the numerals in range (`InRangeExactly`). The firmware calls it with 255 only.
- Reserved header bits make no difference (`ReservedBitsIgnored`), and masked server frames and control frames over
  125 bytes are delivered like any others (`StreamRoundTrip`), although RFC 6455 has the receiver fail such frames.

## Model

| member | source | states |
|---|---|---|
| `PlaybackTheorems.Conservation` | firmware/esp32_voice_kit/buffered_pcm_playback.h:59-200 | for every turn that line 47 did not open over a harmful position of the task, in every interleaving: played ++ in flight ++ buffered = accepted, in order, until a cancel or short I2S write; after one, played ++ in flight is still a prefix of accepted |
| `PlaybackTheorems.DrainSoundness` | firmware/esp32_voice_kit/buffered_pcm_playback.h:155-198 | for every such turn that is not cancelled: drained, it has played every accepted byte exactly when the drain was not decided at lines 160-161 on a sample older than the last send; lines 178 and 196 are always sound, and line 160 is when the input was finished at the sample |
| `PlaybackTheorems.RefinesPolicy` | firmware/esp32_voice_kit/buffered_pcm_playback.h:134-184 | for a turn begun with the task at its loop head, with queued read as buffer plus chunk in flight: every start happens when the policy would start, underrun counts agree, and the recorded maximum is at most the policy's and the capacity |
| `PlaybackStarting.PlaysWhatIsQueued` | firmware/esp32_voice_kit/buffered_pcm_playback.h:147-200 | the converse: from the loop head of a live turn with 12288 bytes queued, or playing with some, input open or finished, in every schedule without a cancel or beginTurn and with full transfers, the first n queued bytes are played in order within 8 steps of the task to the first 1920 and 11 more for each further 1920 |
| `PlaybackStarting.PlaybackStarts` | firmware/esp32_voice_kit/buffered_pcm_playback.h:155-159 | and in every such schedule playing_ is set from the task's fourth step until all that was queued is played |
| `PlaybackTheorems.MaximumOnlyGrows` | firmware/esp32_voice_kit/buffered_pcm_playback.h:134-139 | no step of either thread lowers the recorded maximum except the reset of a new turn |
| `PlaybackRecords.MaximumCoversQueue` | firmware/esp32_voice_kit/buffered_pcm_playback.h:78-79 | after every schedule the recorded maximum of a turn that is not cancelled is no less than what is queued, unless a send is just being recorded |
| `PlaybackTheorems.EnqueueResult` | firmware/esp32_voice_kit/buffered_pcm_playback.h:59-89 | enqueue makes at most eight sends a byte, appends a prefix of its input, and reports success exactly when it appended all of it |
| `PlaybackRecords.EnqueueFits` | firmware/esp32_voice_kit/buffered_pcm_playback.h:59-89 | an enqueue for which 196608 bytes leave room, in a turn that takes input, succeeds within ten of its own full steps, however the task runs meanwhile, and has accepted its whole input |
| `PlaybackProgress.IterationPlaysChunk` | firmware/esp32_voice_kit/buffered_pcm_playback.h:147-200 | with the input finished and full writes, one iteration of the playback task plays the next min(q, 1920) bytes, and the one that empties the buffer drains the turn and ends it |
| `PlaybackProgress.DrainsInTime` | firmware/esp32_voice_kit/buffered_pcm_playback.h:147-200 | from its loop head with q bytes queued the playback task is drained after max(1, ceil(q/1920)) iterations, having played exactly those bytes |
| `PlaybackProgress.TaskRunsAlone` | firmware/esp32_voice_kit/buffered_pcm_playback.h:59-200 | once the input is finished, whatever else is called but cancel and beginTurn, the playback task does step for step what it does alone |
| `PlaybackProgress.DrainsInAnySchedule` | firmware/esp32_voice_kit/buffered_pcm_playback.h:59-200 | in every schedule without a cancel or beginTurn that gives the task 21 full steps for each of the max(1, ceil(q/1920)) chunks, the q bytes queued are played, the turn is drained and the task waits at its loop head |
| `PlaybackStarts.StartsSoundlyExactly` | firmware/esp32_voice_kit/buffered_pcm_playback.h:37-57 | a turn plays a prefix of its own bytes, loses none before a short write, drains only when it may and ends for no other reason, in every continuation until the next beginTurn, exactly when line 47 found the task in none of the harmful positions |
| `PlaybackStarts.OpensOverDrain` | firmware/esp32_voice_kit/buffered_pcm_playback.h:141-145 | a schedule that opens a turn while the task is in the stores of finishDrain |
| `PlaybackStarts.OpensOverFailure` | firmware/esp32_voice_kit/buffered_pcm_playback.h:189-194 | a schedule that opens a turn while the task is failing the one before |
| `PlaybackStarts.OpensOverWrite` | firmware/esp32_voice_kit/buffered_pcm_playback.h:95-104 | a schedule in which cancel gives up waiting twice and a turn is opened while the task writes a chunk of the one before |
| `PlaybackCalls.CallerDescends` | firmware/esp32_voice_kit/buffered_pcm_playback.h:37-104 | each step of an operation that runs alone leaves fewer sends to make, or the same and less of the way to its return: every call returns |
| `PlaybackCalls.CallServes` | firmware/esp32_voice_kit/buffered_pcm_playback.h:37-104 | whatever the interleaving, a call returns with the invariant: a turn that was begun is live and empty; an enqueue appended its whole input, or was given nothing, or found the turn over or failing or its input finished, or saw eight sends in a row take nothing; a cancelled turn is over with its input finished; finishInput finishes the input of a turn that goes on |
| `PlaybackCancel.NothingPlaysOn` | firmware/esp32_voice_kit/buffered_pcm_playback.h:95-198 | once a turn is over, in every schedule that begins no other, nothing more is played but the chunk whose write the task had already decided on |
| `PlaybackCancel.CancelAlone` | firmware/esp32_voice_kit/buffered_pcm_playback.h:95-104 | beside a task that is not busy, cancel ends the turn, its input and its output, and empties the buffer, and touches nothing else |
| `PlaybackCancel.CancelWaits` | firmware/esp32_voice_kit/buffered_pcm_playback.h:98-100 | beside a busy task it looks again and again, and goes on after 150 looks |
| `PlaybackInvariant.TaskKeepsInv` | firmware/esp32_voice_kit/buffered_pcm_playback.h:147-200 | no atomic step of the playback task breaks the invariant behind the theorems, wherever the caller stands |
| `PlaybackInvariant.CallerKeepsInv` | firmware/esp32_voice_kit/buffered_pcm_playback.h:37-104 | no atomic step of beginTurn, enqueue, finishInput or cancel breaks it, wherever the playback task stands |
| `PlaybackInvariant.RunKeepsInv` | firmware/esp32_voice_kit/buffered_pcm_playback.h:37-200 | every schedule of the two threads satisfies the invariant |
| `PlaybackRaces.EarlyDrainRace` | firmware/esp32_voice_kit/buffered_pcm_playback.h:155-162 | a schedule in which a turn begun with the task at its loop head drains at line 161 with accepted bytes unplayed |
| `PlaybackRaces.StaleTurnRace` | firmware/esp32_voice_kit/buffered_pcm_playback.h:37-57 | a schedule in which a turn started while the playback task still ends the previous one is marked drained although its bytes were not played |
| `PlaybackPolicy.MaximumIsPeak` | firmware/esp32_voice_kit/playback_buffer_policy.h:61-64 | after any events of a turn the recorded maximum is the peak the queue reached |
| `PlaybackPolicy.QueuedIsBalance` | firmware/esp32_voice_kit/playback_buffer_policy.h:61-75 | as long as no prefix consumed more than it enqueued, the queue holds the difference |
| `PlaybackPolicy.UnderrunsCounted` | firmware/esp32_voice_kit/playback_buffer_policy.h:77-82 | every underrun of the turn is counted once, and the end of the input is remembered |
| `PlaybackPolicy.PlaysSinceStart` | firmware/esp32_voice_kit/playback_buffer_policy.h:66-82 | the turn plays exactly when some start was followed by no underrun |
| `VoiceTurn.VoiceTurnMachine.Apply` | firmware/esp32_voice_kit/voice_turn_state.h:55-124 | the state after every event in every state, and whether the event was taken |
| `VoiceTurn.EdgesExactly` | firmware/esp32_voice_kit/voice_turn_state.h:55-124 | the machine moves along the eleven edges listed and no others, but for failures, which lead to the error state, and clearing |
| `RealtimeTransport.BeginKeepsSound` | firmware/esp32_voice_kit/realtime_voice_transport.h:27-60 | beginning a session, with a valid configuration or not, keeps the queue bounded, create and mute first on each connection, and an idle transport empty |
| `RealtimeTransport.CloseKeepsSound` | firmware/esp32_voice_kit/realtime_voice_transport.h:96-104 | closing sends session.close exactly once at most and only from a ready session, and leaves an idle, empty transport |
| `TurnInvariant.CloseKeepsOrder` | firmware/esp32_voice_kit/realtime_voice_transport.h:96-104 | session.close behind any orderly part of the protocol keeps the order |
| `RealtimeTransport.ConnectKeepsSound` | firmware/esp32_voice_kit/realtime_voice_transport.h:135-142 | a new connection carries session.create before anything else, or is down |
| `RealtimeTransport.TextKeepsSound` | firmware/esp32_voice_kit/realtime_voice_transport.h:163-182 | a session is ready only with its mute sent as the second message of its connection; the queue never holds more than 48 events |
| `TurnInvariant.TextKeepsOrder` | firmware/esp32_voice_kit/realtime_voice_transport.h:163-182 | the server's first session.created on a connection is answered in order |
| `RealtimeTransport.PollKeepsSound` | firmware/esp32_voice_kit/realtime_voice_transport.h:133-182 | whatever one socket loop() meets, the transport keeps those properties |
| `TurnInvariant.PollKeepsLink` | firmware/esp32_voice_kit/realtime_voice_transport.h:133-182 | one poll in a running session fits the turn state and queues at most one event |
| `TurnInvariant.PollKeepsOrder` | firmware/esp32_voice_kit/realtime_voice_transport.h:133-182 | and keeps the order of the connection's messages, across reconnections |
| `TurnInvariant.SendMeans` | firmware/esp32_voice_kit/realtime_voice_transport.h:116-118 | a send of a ready session is carried, refused with nothing changed, or finds the connection lost and reported |
| `RealtimeTransport.RealtimeVoiceTransport.PopEvent` | firmware/esp32_voice_kit/realtime_voice_transport.h:89-94 | events leave the queue in arrival order |
| `TurnInvariant.FailKeepsInv` | firmware/esp32_voice_kit/esp32_voice_kit.ino:141-148 | from any point of a loop a failure ends offline and silent, the session closed in order, the queue empty, the player sane, with the retry timer at its start |
| `TurnInvariant.StopAudioKeeps` | firmware/esp32_voice_kit/esp32_voice_kit.ino:123-129 | neither direction runs afterwards, and the player's two threads keep their invariant, cancelled or not |
| `TurnInvariant.ProviderConnectionKeeps` | firmware/esp32_voice_kit/esp32_voice_kit.ino:169-184 | a session begun or refused keeps every invariant and is timed from now |
| `TurnInvariant.BeginKeeps` | firmware/esp32_voice_kit/esp32_voice_kit.ino:186-214 | a press keeps every invariant whether the microphone starts, the unmute is sent, refused or lost |
| `TurnInvariant.UnmuteKeepsOrder` | firmware/esp32_voice_kit/esp32_voice_kit.ino:205-208 | the unmute is in order, or is the one unmute after a lost mute that breaks it |
| `TurnInvariant.FinishKeeps` | firmware/esp32_voice_kit/esp32_voice_kit.ino:216-240 | the end of a recording keeps every invariant, cancelled, committed, or failed after either message |
| `TurnInvariant.CancelKeepsOrder` | firmware/esp32_voice_kit/esp32_voice_kit.ino:224-230 | a cancelled recording's mute returns the connection to muted, or is lost and recorded as lost |
| `TurnInvariant.CommitOrder` | firmware/esp32_voice_kit/esp32_voice_kit.ino:231-235 | commit and mute together return the connection to muted, and one without the other can still be closed in order |
| `TurnInvariant.RecordingKeeps` | firmware/esp32_voice_kit/esp32_voice_kit.ino:242-277 | filling, streaming and ending a recording keep every invariant, and one whose microphone runs is ended at ten seconds |
| `TurnInvariant.WriteKeeps` | firmware/esp32_voice_kit/esp32_voice_kit.ino:279-303 | reply audio in any state keeps every invariant: afterwards the player's uncancelled turn has accepted exactly what was fed to it, or the runtime has failed |
| `TurnAudio.DeltaIsTakenWhole` | firmware/esp32_voice_kit/esp32_voice_kit.ino:279-303 | in every reachable state an audio message is given to the player whole and in one piece behind what it had of this reply, or the runtime fails; one that is not a whole number of samples always fails it |
| `TurnAudio.DeltaFits` | firmware/esp32_voice_kit/esp32_voice_kit.ino:279-303 | while the speaker is on and the player has room it does not fail, and a waiting turn is then playing |
| `TurnAudio.LoopTakes` | firmware/esp32_voice_kit/esp32_voice_kit.ino:424-488 | a loop that reads an audio message has given it to the player whole or has failed; a loop that reads none gives the player nothing |
| `TurnInvariant.CompleteKeeps` | firmware/esp32_voice_kit/esp32_voice_kit.ino:328-347 | completing a turn keeps every invariant and records a proper completion, or fails the runtime |
| `VoiceRuntimes.VoiceRuntime.ServiceEventsNow` | firmware/esp32_voice_kit/esp32_voice_kit.ino:358-422 | the queue is drained in order until it is empty or a failure empties it |
| `TurnInvariant.ProviderKeeps` | firmware/esp32_voice_kit/esp32_voice_kit.ino:424-446 | polling, events and connection timeout keep every invariant and leave no event queued and no failure pending |
| `TurnInvariant.SuperviseKeeps` | firmware/esp32_voice_kit/esp32_voice_kit.ino:448-488 | supervision keeps every invariant, and no waiting or playing turn outlives 45 seconds |
| `TurnInvariant.ButtonKeeps` | firmware/esp32_voice_kit/esp32_voice_kit.ino:490-501 | whatever the button does, every invariant is kept |
| `TurnInvariant.NetworkKeeps` | firmware/esp32_voice_kit/esp32_voice_kit.ino:511-563 | Wi-Fi, clock, loss of Wi-Fi and retry keep every invariant, and each offline state is left in time |
| `VoiceRuntimes.VoiceRuntime.LoopOnce` | firmware/esp32_voice_kit/esp32_voice_kit.ino:678-685 | after every loop in any environment: half duplex, an empty event queue, messages in order unless an unmute followed a lost mute, only proper completions, and the microphone off during a recording exactly when reply audio interrupted it |
| `TurnInvariant.LoopKeeps` | firmware/esp32_voice_kit/esp32_voice_kit.ino:678-685 | one loop from any state that keeps the invariants, under any environment, keeps them |
| `TurnInvariant.RunKeeps` | firmware/esp32_voice_kit/esp32_voice_kit.ino:656-685 | every run keeps the invariants of link, audio, order, timers and completions |
| `TurnTheorems.HalfDuplex` | firmware/esp32_voice_kit/esp32_voice_kit.ino:123-167 | in every run microphone and speaker are never both running, and the microphone only while recording |
| `TurnTheorems.CompletionsAreProper` | firmware/esp32_voice_kit/esp32_voice_kit.ino:328-347 | every completed turn came from waiting or playing with the response done; if reply audio was taken since the commit then, since the recording began, its end was announced, the player had drained, and had accepted exactly the bytes fed to it; all of them had been played exactly when line 160 did not decide on an old sample, for turns not begun over a harmful position |
| `TurnAudio.PlayerHasWhatWasRead` | firmware/esp32_voice_kit/esp32_voice_kit.ino:279-303 | in every run, while the speaker is on, what the player has accepted is exactly the audio the loops have read from the socket since it was started |
| `TurnAudio.CompletionsHaveWhatWasRead` | firmware/esp32_voice_kit/esp32_voice_kit.ino:328-347 | every completed turn that was heard had given the player exactly the audio some number of its loops had read of one reply |
| `TurnSilence.SpeakerOffIsOver` | firmware/esp32_voice_kit/esp32_voice_kit.ino:123-129 | in every run the player's turn is over whenever the speaker is off, so that by NothingPlaysOn at most the chunk being written is still heard |
| `TurnReactions.NothingFinishedWaits` | firmware/esp32_voice_kit/esp32_voice_kit.ino:484-487 | no reply that the server has finished and the player has drained outlives a loop |
| `TurnEarlyDrain.UnplayedCompletion` | firmware/esp32_voice_kit/esp32_voice_kit.ino:484-487 | a run from boot that completes a heard turn of which no byte was played |
| `TurnTheorems.OutboundOrder` | firmware/esp32_voice_kit/esp32_voice_kit.ino:186-277 | in every run with one session.created a connection, its messages follow create (mute (unmute append* (mute or commit mute))*)?, cut off anywhere, except exactly when an unmute was sent after a lost mute; between recordings a ready connection is muted exactly when no mute was lost |
| `TurnTheorems.AudioOnlyWhileUnmuted` | firmware/esp32_voice_kit/esp32_voice_kit.ino:186-277 | every append and commit of such a connection stands in a recording opened by its own unmute, after a create and a mute, and every commit behind at least one append |
| `SessionProtocol.PhaseMeaning` | firmware/esp32_voice_kit/realtime_voice_transport.h:64-104 | what each phase of the order automaton says about the messages already sent |
| `SessionProtocol.AppendsFollowUnmute` | firmware/esp32_voice_kit/realtime_voice_transport.h:69-75 | an append has only appends between it and the unmute of its recording |
| `SessionProtocol.CommitsFollowAppend` | firmware/esp32_voice_kit/realtime_voice_transport.h:77-82 | a commit has an append since its unmute, and its mute or a close behind it |
| `TurnTheorems.QueueNeverFills` | firmware/esp32_voice_kit/realtime_voice_transport.h:120-131 | between loops the event queue is empty and a poll adds at most one event, so the overflow branch is never taken; in error the transport is idle |
| `TurnTheorems.LoopKeepsTimer` | firmware/esp32_voice_kit/esp32_voice_kit.ino:424-563 | a loop that ends in the stay it began in has not started its timer again |
| `TurnTheorems.BoundedStay` | firmware/esp32_voice_kit/esp32_voice_kit.ino:424-563 | Wi-Fi connect, clock sync, provider connect, waiting-or-playing, error, and a recording no reply audio interrupts are left within 15, 20, 20, 45, 5 and 10 seconds plus one loop gap, across any wrap of millis() |
| `TurnReactions.WifiLost` | firmware/esp32_voice_kit/esp32_voice_kit.ino:526-557 | without Wi-Fi every session, and every attempt at one, has failed by the end of the loop |
| `TurnReactions.ServerFails` | firmware/esp32_voice_kit/esp32_voice_kit.ino:392-422 | so has the runtime when the server reports an error or a failed response or sends what is no event |
| `TurnReactions.ConnectionLost` | firmware/esp32_voice_kit/esp32_voice_kit.ino:461-469 | and when the connection drops or reports an error |
| `TurnReactions.PlayerFails` | firmware/esp32_voice_kit/esp32_voice_kit.ino:471-476 | and when the player fails during a reply |
| `TurnReactions.OfflineLoop` | firmware/esp32_voice_kit/esp32_voice_kit.ino:511-563 | without a session each loop leads to exactly this state: Wi-Fi, then the clock, then the provider, an error after 15 or 20 seconds, and Wi-Fi again five seconds after an error |
| `TurnReactions.ConnectionOpens` | firmware/esp32_voice_kit/realtime_voice_transport.h:133-142 | a connection that opens is asked for a session first, or the runtime has failed |
| `TurnReactions.SessionOpens` | firmware/esp32_voice_kit/realtime_voice_transport.h:163-172 | a session that is announced is muted at once and the device idle, or the runtime has failed |
| `TurnReactions.ReplyEvents` | firmware/esp32_voice_kit/esp32_voice_kit.ino:383-402 | the first word of a reply starts playing, its last ones are noted and finish the player's input, and a reply without sound is over with the response |
| `TurnReactions.Patience` | firmware/esp32_voice_kit/esp32_voice_kit.ino:438-487 | while the server is quiet a session is waited for until 20 seconds have passed and a reply until 45 have, and no shorter |
| `TurnReactions.RecordingLimit` | firmware/esp32_voice_kit/esp32_voice_kit.ino:242-252 | a recording whose microphone runs ends after ten seconds, and before only by a failure |
| `TurnReactions.Press` | firmware/esp32_voice_kit/esp32_voice_kit.ino:186-214 | a press on a ready, idle device starts a recording with an unmute, or fails it if the microphone or the send does; nothing else starts one |
| `TurnReactions.Release` | firmware/esp32_voice_kit/esp32_voice_kit.ino:216-240 | a release commits and mutes a recording of at least 300 ms with a frame sent, and fails if the connection is not ready or a send fails; any other is muted and the device idle |
| `TurnFrames.FrameFills` | firmware/esp32_voice_kit/esp32_voice_kit.ino:254-276 | samples read and in hand are in the frame sent or still in hand; a frame is sent exactly when 320 are there and it is due, and the runtime fails exactly when a read or that send does |
| `TurnFrames.AppendsAreFrames` | firmware/esp32_voice_kit/esp32_voice_kit.ino:254-276 | in every run the messages of a recording end in its unmute and one append for each frame counted, on a session announced once |
| `TurnRecordings.RecordingOverdueExactly` | firmware/esp32_voice_kit/esp32_voice_kit.ino:242-252 | with nothing more reaching the device, a recording can be prolonged past its ten seconds, to any time at all, exactly when reply audio was taken during it |
| `TurnRecordings.InterruptedRun` | firmware/esp32_voice_kit/esp32_voice_kit.ino:279-303 | a run from boot into such a recording |
| `TurnRaces.LostMuteBreaksOrder` | firmware/esp32_voice_kit/esp32_voice_kit.ino:224-230 | a run with one session.created in which the ignored result of the cancelling mute leaves the connection unmuted and the next unmute breaks the order |
| `WebSocketFrames.XorTwice` | firmware/esp32_voice_kit/src/qh_websockets/WebSockets.cpp:282-284 | masking an octet twice gives it back, and the key octet 0 leaves it as it is |
| `WebSocketStandard.XorByBits` | firmware/esp32_voice_kit/src/qh_websockets/WebSockets.cpp:282-284 | bit k of the masked octet is the sum modulo 2 of bit k of the octet and bit k of the key octet, for each of the eight bits |
| `WebSocketStandard.CombinedIsXor` | firmware/esp32_voice_kit/src/qh_websockets/WebSockets.cpp:282-284 | and no other octet has these bits |
| `WebSocketStandard.MaskedByBits` | firmware/esp32_voice_kit/src/qh_websockets/WebSockets.cpp:282-284 | masked data is what section 5.3 of RFC 6455 describes bit by bit, octet i with octet i modulo 4 of the key, and nothing else is |
| `WebSocketFrames.MaskedTwice` | firmware/esp32_voice_kit/src/qh_websockets/WebSockets.cpp:474-479 | masking is undone by masking again, and the zero key leaves data as it is |
| `WebSocketFrames.ParseInvertsEncode` | firmware/esp32_voice_kit/src/qh_websockets/WebSockets.cpp:93-167 | reading an encoded frame back gives that frame - flag, opcode, key, payload - and stops at its end whatever follows; one over 65536 bytes is refused |
| `WebSocketFrames.EncodePrefixFree` | firmware/esp32_voice_kit/src/qh_websockets/WebSockets.cpp:93-167 | no frame's encoding continues another's |
| `WebSocketFrames.LengthFieldMinimal` | firmware/esp32_voice_kit/src/qh_websockets/WebSockets.cpp:93-102 | the length field is the shortest of all that a receiver reads as that length, as section 5.2 of RFC 6455 demands, exactly when the length is not 65535 |
| `WebSocketFrames.ReservedBitsIgnored` | firmware/esp32_voice_kit/src/qh_websockets/WebSockets.cpp:400-404 | changing the reserved bits of the first octet changes nothing of what is read |
| `WebSocketStandard.EncodeIsFrame` | firmware/esp32_voice_kit/src/qh_websockets/WebSockets.cpp:93-167 | what is sent is a frame as section 5.2 of RFC 6455 lays it out: flag and opcode in the first octet, mask flag and 7-bit length in the second, 2 or 8 octets of length in network order, the key, the data masked with it bit by bit |
| `WebSocketStandard.ParsesExactly` | firmware/esp32_voice_kit/src/qh_websockets/WebSockets.cpp:383-466 | the receiver takes exactly such frames of at most 65536 octets of data, whatever their reserved bits and length field, and stops at their end |
| `WebSocketStandard.GivenOn` | firmware/esp32_voice_kit/src/qh_websockets/WebSockets.cpp:468-538 | frames with opcodes 0, 1, 2, 9 and 10 are given on as they are, a ping is answered by a pong with its data; opcode 8 is answered by a close frame with code 1000, every other by 1002 |
| `WebSocketStandard.LongerRefused` | firmware/esp32_voice_kit/src/qh_websockets/WebSockets.cpp:438-442 | a frame announced with more than 65536 octets is answered by a close frame with code 1009 and read no further than its length |
| `WebSocketStandard.Examples` | firmware/esp32_voice_kit/src/qh_websockets/WebSockets.cpp:93-167 | the encodings of the examples of section 5.7 of RFC 6455 |
| `WebSocketBuffers.CreateHeader` | firmware/esp32_voice_kit/src/qh_websockets/WebSockets.cpp:93-167 | the header octets stand at the given place, every other octet of the buffer is unchanged, and the size is returned |
| `WebSocketBuffers.MaskInPlace` | firmware/esp32_voice_kit/src/qh_websockets/WebSockets.cpp:282-284 | the data in the buffer is masked as MaskedByBits says, the rest unchanged |
| `WebSocketSessions.StreamRoundTrip` | firmware/esp32_voice_kit/src/qh_websockets/WebSockets.cpp:341-538 | as many handleWebsocket calls as frames deliver exactly the frames of a concatenation of encodings, in order, answer each ping with its payload, and leave what follows |
| `WebSocketSessions.OthersDisconnect` | firmware/esp32_voice_kit/src/qh_websockets/WebSockets.cpp:438-442 | a whole frame keeps the connection exactly when it is data, ping or pong within the limit; otherwise nothing is delivered and the close code is 1009, 1000 or 1002 |
| `WebSocketSessions.CutStreamDisconnects` | firmware/esp32_voice_kit/src/qh_websockets/WebSockets.cpp:372-376 | a stream that ends inside a frame disconnects with 1002 and delivers nothing |
| `WebSocketSessions.ParseStable` | firmware/esp32_voice_kit/src/qh_websockets/WebSockets.cpp:383-466 | what has been read of a frame decides it; more input changes nothing |
| `WebSocketClients.WsClient.Write` | firmware/esp32_voice_kit/src/qh_websockets/WebSockets.cpp:671-712 | what is written is a prefix of what was asked |
| `WebSocketClients.WsClient.SendInterned` | firmware/esp32_voice_kit/src/qh_websockets/WebSockets.cpp:243-297 | the short frame in its own buffer, masked in place, is the encoding with that key, or was cut short |
| `WebSocketClients.WsClient.SendInPlace` | firmware/esp32_voice_kit/src/qh_websockets/WebSockets.cpp:256-297 | the frame with its header in the reserved octets is the encoding with the zero key, or was cut short |
| `WebSocketClients.WsClient.SendInTwo` | firmware/esp32_voice_kit/src/qh_websockets/WebSockets.cpp:298-310 | header and raw payload written apart are the encoding with the zero key, or one of them was cut short |
| `WebSocketClients.WsClient.SendFrame` | firmware/esp32_voice_kit/src/qh_websockets/WebSockets.cpp:200-321 | success means the encoding of that frame, with a random key only on the interned path, is what the connection carried |
| `WebSocketClients.WsClient.ClientDisconnect` | firmware/esp32_voice_kit/src/qh_websockets/WebSockets.cpp:69-82 | a close frame with the code, then the connection is down |
| `WebSocketClients.WsClient.ReadBytes` | firmware/esp32_voice_kit/src/qh_websockets/WebSockets.cpp:596-662 | exactly the next n octets in any split of the reads, nothing else of the buffer changed, or the stream ended |
| `WebSocketClients.WsClient.HandleWebsocketWaitFor` | firmware/esp32_voice_kit/src/qh_websockets/WebSockets.cpp:352-381 | true without a change when the octets are there; otherwise the whole frame was dealt with inside, and the outer activation does nothing more |
| `WebSocketClients.WsClient.HandleWebsocketCb` | firmware/esp32_voice_kit/src/qh_websockets/WebSockets.cpp:383-466 | the re-entrant receive path terminates, stays inside the 14-octet header buffer, and does what the straight-line parser does with the octets taken and to come |
| `WebSocketClients.WsClient.HandleWebsocketPayloadCb` | firmware/esp32_voice_kit/src/qh_websockets/WebSockets.cpp:468-538 | unmasked data is dispatched by opcode, and the header count is reset |
| `WebSocketClients.WsClient.HandleWebsocket` | firmware/esp32_voice_kit/src/qh_websockets/WebSockets.cpp:341-345 | one frame handled with the header count at 0, or the connection down |
| `WebSocketClients.WsClient.HandleRepeatedly` | firmware/esp32_voice_kit/src/qh_websockets/WebSockets.cpp:341-345 | repeated calls are repeated straight-line steps |
| `WebSocketExchange.Exchange` | firmware/esp32_voice_kit/src/qh_websockets/WebSockets.cpp:200-538 | messages sent through sendFrame, each reported sent, are what a peer fed the carried octets in reads of any size is given, in order, with nothing left over |
| `DeviceConfigWire.ParseConfigUnsigned` | firmware/esp32_voice_kit/device_config_wire.h:66-78 | the loop in uint32_t arithmetic for any maximum; from 9 up it accepts exactly the non-empty digit strings whose value is at most the maximum, and gives the value |
| `DeviceConfigWire.InRangeExactly` | firmware/esp32_voice_kit/device_config_wire.h:66-78 | it accepts exactly the numerals in range, for every text, exactly when the maximum is at least 9 |
| `DeviceConfigWire.ParseConfigBoolean` | firmware/esp32_voice_kit/device_config_wire.h:80-90 | accepts exactly "1" and "0" |
| `DeviceConfigWire.EncodeDeviceConfigWire` | firmware/esp32_voice_kit/device_config_wire.h:38-64 | the header and the thirteen fields in order |
| `DeviceConfigLayout.EncodedLayout` | firmware/esp32_voice_kit/device_config_wire.h:38-64 | an encoding is "QHVC", version 3, the count 13, and fields 1 to 13 each with its number, two octets of length and its text, numbers without leading zeros |
| `DeviceConfigWire.DecodeDeviceConfigWire` | firmware/esp32_voice_kit/device_config_wire.h:92-173 | the decoder's result, with the first error it meets, for every input |
| `DeviceConfigLayout.HeaderFaults` | firmware/esp32_voice_kit/device_config_wire.h:94-107 | a payload is refused for its size, its first four octets and its version, in this order and with these errors |
| `DeviceConfigLayout.FirstFaultDecides` | firmware/esp32_voice_kit/device_config_wire.h:113-163 | behind any good fields the next one refuses the payload for what is wrong with it, whatever follows |
| `DeviceConfigLayout.FaultsAtTheEnd` | firmware/esp32_voice_kit/device_config_wire.h:165-172 | good fields up to the count are refused for more input, for a field missing, for an invalid configuration, in this order, and otherwise accepted |
| `DeviceConfigTheorems.RoundTrip` | firmware/esp32_voice_kit/device_config_wire.h:46-64 | a valid configuration decodes from its encoding exactly when that is at most 8192 bytes, and is too large otherwise |
| `DeviceConfigTheorems.OversizedConfig` | firmware/esp32_voice_kit/device_config_wire.h:94-96 | a valid configuration whose encoding is over the limit |
| `DeviceConfigTheorems.AcceptedIsThirteen` | firmware/esp32_voice_kit/device_config_wire.h:110-172 | an accepted payload is exactly thirteen distinct fields and nothing else, by counting the ids seen |
| `DeviceConfigTheorems.ThirteenIsAccepted` | firmware/esp32_voice_kit/device_config_wire.h:110-172 | conversely such a payload within the limit is accepted |
| `DeviceConfigTheorems.Pigeonhole` | firmware/esp32_voice_kit/device_config_wire.h:166-168 | as many distinct ids as there are fields are all of them |
| `DeviceConfigTheorems.PrefixFree` | firmware/esp32_voice_kit/device_config_wire.h:165-165 | no accepted payload continues another |
| `DeviceConfigTheorems.OrderIndependent` | firmware/esp32_voice_kit/device_config_wire.h:110-164 | reordering the fields of an accepted payload leaves it accepted with the same configuration |
| `DeviceConfigTheorems.ReencodeNoLonger` | firmware/esp32_voice_kit/device_config_wire.h:92-173 | encoding an accepted configuration again takes no more bytes than its payload and decodes to it |
| `DeviceConfigTheorems.SetThenGet` | firmware/esp32_voice_kit/device_config_wire.h:132-163 | storing a field changes that field, to its canonical text, and no other |
| `DeviceConfigChecks.ValidateDeviceConfig` | firmware/esp32_voice_kit/device_config.h:76-104 | each complaint is made exactly for its own reason, and none exactly for a valid configuration |
| `DeviceConfigChecks.ParsePort` | firmware/esp32_voice_kit/secure_endpoint.h:45-52 | the loop that stops once the number is over 65535 accepts exactly the digit strings between 1 and 65535 |
| `DeviceConfigChecks.EndpointExactly` | firmware/esp32_voice_kit/secure_endpoint.h:18-61 | an endpoint is accepted exactly when it is "https://", a host, perhaps a port between 1 and 65535, and perhaps a path or query, without white space or fragment |
| `ConfigStore.PreferencesConfigStore.BeginStore` | firmware/esp32_voice_kit/preferences_config_store.h:15-21 | after a reset the store is consistent again and finds the configuration whose flag was written last, if its encoding is readable |
| `ConfigStore.PreferencesConfigStore.PendingReadsBack` | firmware/esp32_voice_kit/preferences_config_store.h:29-37 | true exactly when the slot holds the encoding and can be read |
| `ConfigStore.PreferencesConfigStore.ReadActiveConfig` | firmware/esp32_voice_kit/preferences_config_store.h:52-65 | what the active slot decodes to, within the limit |
| `ConfigStore.ApplyDeviceConfig` | firmware/esp32_voice_kit/config_transaction.h:24-42 | from a consistent store: success exactly when the configuration is valid, its write took and reads back, and power lasted for the flag; then a reset finds it, and otherwise what it would have found before |
| `ConfigStore.RunKeepsInv` | firmware/esp32_voice_kit/preferences_config_store.h:15-65 | in every run of resets and applies, with power lost between any two operations, the active slot holds the last activated configuration |
| `ConfigStore.CrashSafety` | firmware/esp32_voice_kit/preferences_config_store.h:15-65 | after any run a reset finds exactly the configuration whose active flag was written last, or nothing when its encoding is over 8192 bytes |
| `ConfigStore.ApplyOutcome` | firmware/esp32_voice_kit/config_transaction.h:24-42 | the flag changes exactly when the apply reports success; every other apply leaves what a reset finds unchanged |
| `ConfigStore.AppliesExactly` | firmware/esp32_voice_kit/config_transaction.h:24-42 | an apply succeeds exactly when the configuration is valid, its write took and reads back, and power lasted for the flag |
| `ConfigStore.ApplyReports` | firmware/esp32_voice_kit/config_transaction.h:24-42 | each report of an apply has its own reason, the first that holds, and every failure but an invalid configuration discards the pending slot |
| `ConfigStore.ProvisionedSurvives` | firmware/esp32_voice_kit/esp32_voice_kit.ino:591-598 | a configuration that was decoded from a payload is the one a reset finds once it was applied |
| `Sha1Contexts.ChRewritten` | firmware/esp32_voice_kit/src/qh_websockets/libsha1/libsha1.c:48-49 | the rewritten choice function is the standard's |
| `Sha1Contexts.MajRewritten` | firmware/esp32_voice_kit/src/qh_websockets/libsha1/libsha1.c:51-51 | the rewritten majority function is the standard's |
| `Sha1Contexts.SwappedReads` | firmware/esp32_voice_kit/src/qh_websockets/libsha1/libsha1.c:36-41 | the byte swap turns a little-endian load into the big-endian word |
| `Sha1Contexts.WindowReads` | firmware/esp32_voice_kit/src/qh_websockets/libsha1/libsha1.c:44-45 | the circular sixteen-word buffer yields the next word of the eighty-word schedule |
| `Sha1Contexts.NextWord` | firmware/esp32_voice_kit/src/qh_websockets/libsha1/libsha1.c:36-45 | that word is put in its place and the buffer moves on by one |
| `Sha1Contexts.R` | firmware/esp32_voice_kit/src/qh_websockets/libsha1/libsha1.c:47-52 | one round on the rotated variables is the standard's round |
| `Sha1Contexts.AllRounds` | firmware/esp32_voice_kit/src/qh_websockets/libsha1/libsha1.c:81-101 | eighty rounds with rotating roles are the standard's eighty rounds |
| `Sha1Contexts.Transform` | firmware/esp32_voice_kit/src/qh_websockets/libsha1/libsha1.c:57-113 | a block is compressed as in section 6.1.2 of FIPS 180-4, for every state and block |
| `Sha1Contexts.CountedIsBits` | firmware/esp32_voice_kit/src/qh_websockets/libsha1/libsha1.c:136-139 | the two count words are 8 times the octets seen modulo 2^64 |
| `Sha1Contexts.CountAdds` | firmware/esp32_voice_kit/src/qh_websockets/libsha1/libsha1.c:136-139 | one update with its carry adds 8 times its length |
| `Sha1Contexts.Sha1Context.Update` | firmware/esp32_voice_kit/src/qh_websockets/libsha1/libsha1.c:132-151 | the hashed blocks and the buffered tail are those of the whole message so far |
| `Sha1Contexts.Sha1Context.PadZeros` | firmware/esp32_voice_kit/src/qh_websockets/libsha1/libsha1.c:184-189 | the padding loop ends within one block with the zeros of section 5.1.1 |
| `Sha1Contexts.Sha1Context.Final` | firmware/esp32_voice_kit/src/qh_websockets/libsha1/libsha1.c:156-198 | the digest of the whole message below 2^61 bytes |
| `Sha1Contexts.DigestOfPieces` | firmware/esp32_voice_kit/src/qh_websockets/libsha1/libsha1.c:118-198 | whatever pieces a message comes in, the digest is that of the whole |
| `Sha1Example.DigestOfAbc` | firmware/esp32_voice_kit/src/qh_websockets/libsha1/libsha1.c:57-198 | the digest of "abc" is the one FIPS 180-4's example has, by its eighty words and rounds |
| `Base64.EncodeBase64` | firmware/esp32_voice_kit/realtime_voice_protocol.h:35-51 | the encoding of section 4 of RFC 4648 |
| `Base64Standard.EncodesByTable` | firmware/esp32_voice_kit/realtime_voice_protocol.h:35-51 | character by character: the i-th six-bit value of the octets looked up in the literal alphabet of RFC 4648, and then '=' for each octet the last group lacks |
| `Base64Standard.Vectors` | firmware/esp32_voice_kit/realtime_voice_protocol.h:35-51 | the test vectors of section 10 of RFC 4648 |
| `Base64.DecodeRealtime` | firmware/esp32_voice_kit/realtime_voice_protocol.h:62-94 | succeeds exactly on decodable text, the empty text included, and gives its octets |
| `Base64.DecodeTts` | firmware/esp32_voice_kit/doubao_tts_sse.h:60-88 | agrees with the other decoder on every text but the empty one, which it refuses |
| `Base64Standard.DecodesByTable` | firmware/esp32_voice_kit/realtime_voice_protocol.h:53-94 | text that looks up six-bit values in that alphabet, padded with '=' to whole groups, decodes to the octets of those values |
| `Base64Standard.DecodesNothingElse` | firmware/esp32_voice_kit/realtime_voice_protocol.h:53-94 | and no other text decodes |
| `Base64.DecodeInvertsEncode` | firmware/esp32_voice_kit/realtime_voice_protocol.h:35-94 | decode(encode(s)) = s |
| `Base64.ReencodeExactly` | firmware/esp32_voice_kit/realtime_voice_protocol.h:62-94 | encoding what was decoded gives back the text exactly when its unused trailing bits are zero |
| `JsonStrings.EscapeJsonString` | firmware/esp32_voice_kit/json_string.h:12-49 | the escape of every octet, in order |
| `JsonStandard.OctetIsWritten` | firmware/esp32_voice_kit/json_string.h:12-49 | each octet is written as itself, as one of the seven short escapes, or as \u00 and two lower-case digits |
| `JsonStrings.ParseJsonString` | firmware/esp32_voice_kit/json_string.h:75-125 | the string at a quote, or none at the first malformed character |
| `JsonStandard.ParsesExactly` | firmware/esp32_voice_kit/json_string.h:75-125 | a string is read exactly when it is spelled in the characters and escapes of section 7 of RFC 8259, the eight short ones and \u with digits in either case, up to its closing quote, and what is read is the text they stand for |
| `JsonStandard.Utf8Reads` | firmware/esp32_voice_kit/json_string.h:58-73 | the octets written for a number below 65536 are read back as that number by the octet patterns of RFC 3629, and a surrogate gets none |
| `JsonStandard.ReadsAlone` | firmware/esp32_voice_kit/json_string.h:58-73 | and no other octets are read as it |
| `JsonStrings.FindJsonString` | firmware/esp32_voice_kit/json_string.h:127-140 | the string behind the first colon after the first occurrence of the key |
| `JsonStandard.FindsValue` | firmware/esp32_voice_kit/json_string.h:127-140 | the value of a key is what follows the first colon behind the first place where the quoted key stands, white space aside |
| `JsonStrings.FindJsonInteger` | firmware/esp32_voice_kit/doubao_tts_sse.h:24-49 | the digits there, when there are any and they fit an int |
| `JsonStandard.FindsInteger` | firmware/esp32_voice_kit/doubao_tts_sse.h:24-49 | a decimal number at that place is read exactly when it is at most 2147483647 |
| `JsonStrings.ParseInvertsEscape` | firmware/esp32_voice_kit/json_string.h:12-125 | parsing inverts escaping for every string of octets, whatever follows the closing quote |
| `JsonStrings.StringRoundTrip` | firmware/esp32_voice_kit/json_string.h:12-125 | the same inside any prefix and suffix |
| `RealtimeMessages.BuildRealtimeAudioAppend` | firmware/esp32_voice_kit/realtime_voice_protocol.h:113-120 | the append message |
| `RealtimeMessages.BuildRealtimeControlEvent` | firmware/esp32_voice_kit/realtime_voice_protocol.h:122-130 | the control message |
| `RealtimeMessages.AppendText` | firmware/esp32_voice_kit/realtime_voice_protocol.h:113-120 | character by character, the append message |
| `RealtimeMessages.ControlText` | firmware/esp32_voice_kit/realtime_voice_protocol.h:122-130 | character by character, the control message, both texts escaped |
| `RealtimeMessages.AudioRoundTrip` | firmware/esp32_voice_kit/realtime_voice_protocol.h:113-120 | searching an append message for its audio and decoding it gives the sound that was put in |
| `RealtimeMessages.TypeRoundTrip` | firmware/esp32_voice_kit/realtime_voice_protocol.h:122-130 | searching a control message for its type gives the type it was built with, whatever octets it has |
| `TtsParsers.DoubaoTtsSseParser.FeedChunk` | firmware/esp32_voice_kit/doubao_tts_sse.h:95-109 | the verdict on everything fed so far is that its lines read as admitted events with no more audio than the maximum, and the audio is that of those events, however it was cut into chunks |
| `TtsParsers.DoubaoTtsSseParser.FinishStream` | firmware/esp32_voice_kit/doubao_tts_sse.h:111-125 | a stream is accepted exactly when, with the line and event in progress, it reads as admitted events within the maximum and its closing event is among them; its audio is theirs |
| `TtsParsers.FeedPieces` | firmware/esp32_voice_kit/doubao_tts_sse.h:95-109 | feed called with any pieces of a stream leaves the same state, audio and verdict as one call with the whole, inside CR LF and after an error too |
| `TtsStream.ErrorsAbsorb` | firmware/esp32_voice_kit/doubao_tts_sse.h:133-142 | an error changes no more, whatever is fed |
| `TtsStream.DispatchMeans` | firmware/esp32_voice_kit/doubao_tts_sse.h:173-228 | an event is refused exactly when it is not admitted or its sound finds no room, with the status that says why; otherwise its sound is appended |
| `TtsStream.AudioOfStream` | firmware/esp32_voice_kit/doubao_tts_sse.h:95-228 | for every octet string fed: an error exactly when its lines do not read as events, an event is not admitted, or the payloads of the events numbered 352 exceed the maximum; the audio is those payloads decoded, or nothing after an error |
| `TtsStream.FinishVerdict` | firmware/esp32_voice_kit/doubao_tts_sse.h:111-125 | finish accepts exactly such streams that hold their closing event, counting the line and event in progress |
| `TtsStream.StreamReads` | firmware/esp32_voice_kit/doubao_tts_sse.h:95-228 | a stream written from a list of events gives an error exactly when one is not admitted or their audio exceeds the maximum, and their audio otherwise |
| `TtsStream.FeedLine` | firmware/esp32_voice_kit/doubao_tts_sse.h:95-109 | a line is read whole, and one ended by CR LF as one ended by LF |
| `TtsStream.EventLine` | firmware/esp32_voice_kit/doubao_tts_sse.h:144-164 | blanks in front of an event's number make no difference |
| `TtsStream.DataLine` | firmware/esp32_voice_kit/doubao_tts_sse.h:165-170 | data is taken from behind the colon and at most one blank, and each further line of it follows a line feed |
| `TtsStream.OtherLine` | firmware/esp32_voice_kit/doubao_tts_sse.h:171-171 | any other line says nothing |
| `TtsStream.FeedStream` | firmware/esp32_voice_kit/doubao_tts_sse.h:95-228 | a stream of events on the wire is dispatched event by event, in order, up to the first error |
| `Base64Coroutines.EncodeBlocks` | firmware/esp32_voice_kit/src/qh_websockets/libb64/cencode.c:35-94 | encoding a message in any blocks fills the buffer and leaves the state as one block does |
| `Base64Streams.EncodedIsWrapped` | firmware/esp32_voice_kit/src/qh_websockets/libb64/cencode.c:35-117 | the whole output is the standard's encoding with a newline after every eighteenth complete group |
| `Base64Streams.EncodedUnwraps` | firmware/esp32_voice_kit/src/qh_websockets/libb64/cencode.c:35-117 | without its newlines the output is the encoding of section 4 of RFC 4648 |
| `Base64Streams.WrappedLines` | firmware/esp32_voice_kit/src/qh_websockets/libb64/cencode.c:84-89 | each 54 octets give a line of 72 characters and a newline; fewer give none |
| `Base64Standard.LinesOf54` | firmware/esp32_voice_kit/src/qh_websockets/libb64/cencode.c:84-89 | 54 octets make a line of 72 characters ended by a line feed, and fewer none |
| `Base64Standard.StreamValues` | firmware/esp32_voice_kit/src/qh_websockets/libb64/cdecode.c:19-26 | the decoder takes the alphabet's characters at their place in it and passes over every other but '{' |
| `Base64Coroutines.DecodeBlocks` | firmware/esp32_voice_kit/src/qh_websockets/libb64/cdecode.c:34-96 | decoding in any blocks writes the same octets, leaves the same state, and touches nothing but the place of the octet in progress |
| `Base64Streams.DecodeInvertsEncode` | firmware/esp32_voice_kit/src/qh_websockets/libb64/cdecode.c:34-96 | decoding the encoder's output, newlines, padding and NUL included, gives back the message, whatever stands behind the table |
| `Base64Coroutines.EncodeState.EncodeBlock` | firmware/esp32_voice_kit/src/qh_websockets/libb64/cencode.c:35-94 | entered at the label it left, with its result in a local that is saved only where it leaves, it writes exactly the block's characters and nothing else |
| `Base64Coroutines.EncodeState.EncodeBlockEnd` | firmware/esp32_voice_kit/src/qh_websockets/libb64/cencode.c:96-117 | what is left over, the padding and the NUL |
| `Base64Coroutines.DecodeState.DecodeBlock` | firmware/esp32_voice_kit/src/qh_websockets/libb64/cdecode.c:34-96 | entered at the label it left, with the octet in progress in the buffer, it writes the block's octets and at most the octet in progress behind them |

## Left out

- Display, serial output, I2S, Wi-Fi, NTP, HTTP and TLS calls: only their results appear, chosen by the environment.
- `failure_stage_` and the other diagnostics: no branch modelled here depends on them.
- FreeRTOS internals: the stream buffer is a bounded FIFO whose send and receive are atomic and may be partial; a receive returns nothing only from an empty buffer.
- PlaybackTheorems.Conservation, PlaybackTheorems.DrainSoundness: about turns that line 47 did not open over a harmful position of the playback task; for the others they fail, as `StartsSoundlyExactly` shows.
- PlaybackTheorems.RefinesPolicy: about turns begun with the playback task at its loop head; one begun over a task that is on its way there may start once on the earlier turn's sample.
- PlaybackProgress.DrainsInTime: the playback task alone; `TaskRunsAlone` carries it to every schedule without a cancel or a beginTurn.
- Transcripts, reply text, identifiers and the companion sync: strings that no modelled branch reads.
- PCM conversion and volume scaling: the conversion of a full frame always gives 640 bytes, and a reply's sound is what is left after scaling.
- TurnTheorems.OutboundOrder: given that the server announces a session once a connection.
- PlaybackStarting.PlaysWhatIsQueued: about transfers that move what they can, as the firmware's FreeRTOS and I2S calls do unless they fail.
- TurnFrames.AppendsAreFrames: given that the server announces a session once a connection.
- TurnTheorems.BoundedStay: the clock is sampled once a loop, while the firmware reads it at each use.
- `WebSocketsClient.cpp`: connection, handshake, heartbeat and reconnection are an environment that delivers at most one event a loop.
- WebSocketClients.WsClient.Write: the retry loop gives up at any point, while the firmware's does when the connection is gone or five seconds pass without progress.
- WebSocketClients.WsClient.HandleWebsocketPayloadCb: the application's callback only records the message; what it sends in turn is in the turn runtime. Allocation never fails, a null payload is an empty buffer, and the wait for more input ends only when the stream does.
- Opening the store (`begin()` returning false), a failed read in `activeConfig()`, and a flag write that fails yet changes the flag are assumed away.
- Provisioning over serial, its checksum and the restart: file and process plumbing around the modelled decode and apply.
- DeviceConfigChecks.EndpointExactly: only whether an endpoint is accepted, not the host, port and path it yields.
- Base64Coroutines.DecodeState.DecodeBlock: the octet behind the decoding table, which the range test lets '{' reach, is a parameter; the round trip does not depend on it. A char is signed. A coroutine's fall-through from one case label to the next is one more turn of its loop.
- TtsStream.FeedStream: an event number is an unbounded integer, while the firmware's int overflows past 2147483647.
- JsonStrings.FindJsonString: a first-match search, so results are claimed only for the messages built here and not for JSON in general.
- Sha1Contexts.Sha1Context.Update: each update is at most 2^32-64 bytes, the range in which its 32-bit index arithmetic does not wrap.
- `doubao_asr_*`, `openai_reply_protocol.h`, `provider_*`, `qh_sync_*`, `doubao_tts_protocol.h`, `audio_frame_pacer.h`, `button_debouncer.h`, `pcm_audio.h`, `display_view.h` and the Python scripts: easy members or plumbing.
