/**
 The composed push-to-talk runtime of esp32_voice_kit.ino: the turn state machine, the realtime
 transport, the half-duplex audio bus and the player, stepped by loop(). The environment - Wi-Fi,
 clock, button, server, codec and bus results - is one `Input` per loop; millis() is the low 32 bits
 of `Input.now`, sampled once per loop.

 The player is the two-thread machine of module PlaybackMachine. Each of its operations, and each look at
 its flags, runs the playback task and the call in the interleaving that `Input.schedules` gives next.
 */
module TurnRuntime {
  import opened Common
  import opened VoiceTurn
  import Transport = RealtimeTransport
  import Playback = PlaybackMachine
  import Calls = PlaybackCalls

  const WIFI_CONNECT_TIMEOUT_MS := 15000
  const RUNTIME_RETRY_DELAY_MS := 5000
  const CLOCK_SYNC_TIMEOUT_MS := 20000
  const PROVIDER_CONNECT_TIMEOUT_MS := 20000
  const PROVIDER_RESPONSE_TIMEOUT_MS := 45000
  const MINIMUM_RECORDING_MS := 300
  const MAXIMUM_RECORDING_MS := 10000
  const SAMPLES_PER_FRAME: nat := 320

  /** `schedules` holds the interleavings of the next operations on the player. */
  datatype Audio = Audio(microphone: bool, speaker: bool, player: Playback.State, schedules: seq<seq<Calls.Slice>>)

  /** How a turn completed, and the player as completeTurn found it. */
  datatype Completion = Completion(from: TurnState, heard: bool, responseDone: bool, audioDone: bool,
                                   fed: seq<byte>, player: Playback.State)

  datatype Timers = Timers(wifi: nat, error: nat, clock: nat, provider: nat, recording: nat, response: nat)

  /** Read by no service function. */
  datatype History = History(
    since: nat,                      // real time at which the current state's timer was started
    heard: bool,                     // reply audio was taken since the last commit
    interrupted: bool,               // reply audio was taken since the recording began
    fed: seq<byte>,                  // the reply audio taken in the player's turn
    unmuted: bool,                   // a cancelled recording's mute failed with the socket still up
    reopened: bool,                  // and a later recording unmuted the connection again
    recreated: bool,                 // the server announced a session twice on one connection
    completions: seq<Completion>)

  datatype Runtime = Runtime(
    turn: TurnState, link: Transport.Link, audio: Audio, timers: Timers,
    responseDone: bool, audioDone: bool, captured: nat, frames: nat,
    past: History)

  datatype Button = Steady | Pressed | Released

  datatype Input = Input(
    now: nat, wifi: bool, clock: bool, sessionValid: bool,
    socket: Transport.SocketInput, outcomes: seq<Transport.SendOutcome>,
    schedules: seq<seq<Calls.Slice>>, microphoneStarts: bool, speakerStarts: bool,
    button: Button, readBytes: nat, due: bool)

  /** Milliseconds since `started`, as the firmware's uint32_t subtraction gives them. */
  function Elapsed(now: nat, started: nat): nat {
    U32(U32(now) - started)
  }

  // ---------- player and audio bus ----------

  function NextSchedule(a: Audio): seq<Calls.Slice> {
    if a.schedules == [] then [] else a.schedules[0]
  }

  function LaterSchedules(a: Audio): seq<seq<Calls.Slice>> {
    if a.schedules == [] then [] else a.schedules[1..]
  }

  /** One operation of the player, from its call to its return. */
  function CallPlayer(a: Audio, call: Playback.Call): Audio {
    a.(player := Calls.Called(a.player, call, NextSchedule(a)), schedules := LaterSchedules(a))
  }

  /** The playback task runs on until one of its flags is read. */
  function Observe(a: Audio): Audio {
    a.(player := Calls.Interleave(a.player, NextSchedule(a)), schedules := LaterSchedules(a))
  }

  function ReportFailure(a: Audio): Audio {
    a.(player := Playback.StartCall(a.player, Playback.ReportFailure(true)))
  }

  function StopAudio(a: Audio): Audio {
    if !a.microphone && !a.speaker then a
    else (if a.speaker then CallPlayer(a, Playback.Cancel) else a).(microphone := false, speaker := false)
  }

  function StartMicrophone(a: Audio, ok: bool): Audio {
    StopAudio(a).(microphone := ok)
  }

  function StartSpeaker(a: Audio, ok: bool): Audio {
    if a.speaker then a else StopAudio(a).(speaker := ok)
  }

  // ---------- the service functions ----------

  function FailRuntime(s: Runtime, now: nat): Runtime {
    s.(audio := StopAudio(s.audio), link := Transport.Close(s.link), turn := Next(s.turn, Failure),
       timers := s.timers.(error := U32(now)), past := s.past.(since := now))
  }

  /** Lines 201-210: the microphone, then the unmute. */
  function StartInput(s: Runtime, input: Input): Runtime {
    var r := s.(audio := StartMicrophone(s.audio, input.microphoneStarts));
    if !input.microphoneStarts then FailRuntime(r, input.now) else
      var asked := r.(link := Transport.SendText(r.link, Transport.Unmute));
      if Transport.Outcome(r.link) != Transport.Sent then FailRuntime(asked, input.now)
      else asked.(timers := s.timers.(recording := U32(input.now)),
                  past := s.past.(since := input.now, interrupted := false,
                                  reopened := s.past.reopened || s.past.unmuted))
  }

  /** beginRecording, for a device with a configuration. */
  function BeginRecording(s: Runtime, input: Input): Runtime {
    if s.link.status != Transport.Ready || !Accepts(s.turn, ButtonPressed) then s
    else StartInput(s.(turn := RecordingAndStreaming, responseDone := false, audioDone := false,
                       captured := 0, frames := 0), input)
  }

  /** The mute of a recording too short to commit; its result is not looked at. */
  function CancelRecording(s: Runtime): Runtime {
    var muted := if s.link.status == Transport.Ready then Transport.SendText(s.link, Transport.Mute) else s.link;
    s.(link := muted, turn := Idle,
       past := s.past.(unmuted := s.past.unmuted
                                  || (muted.socket == Transport.Up
                                      && Transport.Outcome(s.link) != Transport.Sent)))
  }

  /** commitInput: the commit, then the mute; whether both were sent. */
  function CommitInput(l: Transport.Link): (r: (Transport.Link, bool)) {
    if l.status != Transport.Ready then (l, false) else
      var committed := Transport.SendText(l, Transport.Commit);
      if Transport.Outcome(l) != Transport.Sent then (committed, false)
      else (Transport.SendText(committed, Transport.Mute), Transport.Outcome(committed) == Transport.Sent)
  }

  function FinishRecording(s: Runtime, input: Input): Runtime {
    if s.turn != RecordingAndStreaming then s else
      var r := s.(audio := StopAudio(s.audio));
      if Elapsed(input.now, s.timers.recording) < MINIMUM_RECORDING_MS || s.frames == 0
      then CancelRecording(r)
      else
        var (link, ok) := CommitInput(r.link);
        if !ok then FailRuntime(r.(link := link), input.now)
        else r.(link := link, turn := WaitingResponse,
                timers := s.timers.(response := U32(input.now)),
                past := s.past.(since := input.now, heard := false))
  }

  /** Lines 254-276: fill the frame and stream it when it is due. */
  function StreamFrame(s: Runtime, input: Input): Runtime {
    var bytes := Min(input.readBytes, 4 * (SAMPLES_PER_FRAME - s.captured));
    if s.captured < SAMPLES_PER_FRAME && (bytes <= 0 || bytes % 4 != 0) then FailRuntime(s, input.now) else
      var r := s.(captured := if s.captured < SAMPLES_PER_FRAME then s.captured + bytes / 4 else s.captured);
      if r.captured != SAMPLES_PER_FRAME || !input.due then r
      else if r.link.status != Transport.Ready then FailRuntime(r, input.now)
      else
        var sent := r.(link := Transport.SendText(r.link, Transport.Append));
        if Transport.Outcome(r.link) != Transport.Sent then FailRuntime(sent, input.now)
        else sent.(captured := 0, frames := r.frames + 1)
  }

  function ServiceRecording(s: Runtime, input: Input): Runtime {
    if s.turn != RecordingAndStreaming || !s.audio.microphone then s
    else if Elapsed(input.now, s.timers.recording) >= MAXIMUM_RECORDING_MS then FinishRecording(s, input)
    else StreamFrame(s, input)
  }

  /** Lines 288-295: the speaker bus and a turn of the player, for the first audio of a reply. */
  function BeginPlayback(s: Runtime, input: Input): (r: (Runtime, bool)) {
    if s.audio.speaker then (s, true) else
      var a := StartSpeaker(s.audio, input.speakerStarts);
      if !a.speaker then (s.(audio := ReportFailure(a)), false)
      else
        var begun := CallPlayer(a, Playback.BeginTurn);
        (s.(audio := begun, past := s.past.(fed := [])), begun.player.c.result)
  }

  /** Lines 296-302: the reply is heard once its bytes are queued. */
  function EnqueueAudio(s: Runtime, pcm: seq<byte>): (r: (Runtime, bool)) {
    var a := CallPlayer(s.audio, Playback.Enqueue(pcm));
    var r := s.(turn := Next(s.turn, OutputAudioStarted), audio := a);
    if !a.player.c.result then (r, false)
    else (r.(past := s.past.(heard := true, fed := s.past.fed + pcm,
                             interrupted := s.past.interrupted || s.turn == RecordingAndStreaming)), true)
  }

  /** Whole 16-bit samples, and at least one. */
  predicate Playable(pcm: Option<seq<byte>>) {
    pcm.Some? && pcm.value != [] && |pcm.value| % 2 == 0
  }

  /** writeOutputAudio, and the failure of the runtime when it fails. */
  function WriteOutputAudio(s: Runtime, pcm: Option<seq<byte>>, input: Input): Runtime {
    if !Playable(pcm) then FailRuntime(s.(audio := ReportFailure(s.audio)), input.now)
    else
      var (begun, playing) := BeginPlayback(s, input);
      if !playing then FailRuntime(begun, input.now)
      else
        var (queued, taken) := EnqueueAudio(begun, pcm.value);
        if taken then queued else FailRuntime(queued, input.now)
  }

  function CompleteTurn(s: Runtime, input: Input): Runtime {
    var r := s.(audio := StopAudio(s.audio));
    if !Accepts(s.turn, ResponseDone) then FailRuntime(r, input.now)
    else
      r.(turn := Idle,
         past := s.past.(completions := s.past.completions
           + [Completion(s.turn, s.past.heard, s.responseDone, s.audioDone, s.past.fed, s.audio.player)]))
  }

  /** One server event; a failed runtime has closed the transport and with it the queue. */
  function HandleEvent(s: Runtime, e: Transport.Event, input: Input): (r: Runtime)
    ensures r.link.events == s.link.events || r.link.events == []
  {
    match e
    case AudioStarted => s.(turn := Next(s.turn, OutputAudioStarted))
    case AudioDelta(pcm) => WriteOutputAudio(s, pcm, input)
    case AudioDone => s.(audioDone := true, audio := CallPlayer(s.audio, Playback.FinishInput))
    case ResponseDone =>
      var r := s.(responseDone := true);
      if r.audio.speaker then r else CompleteTurn(r, input)
    case ResponseFailed => FailRuntime(s, input.now)
    case ErrorReported => FailRuntime(s, input.now)
    case Malformed => FailRuntime(s, input.now)
    case _ => s
  }

  /** Drain the event queue. */
  function ServiceEvents(s: Runtime, input: Input): Runtime
    decreases |s.link.events|
  {
    if s.link.events == [] then s else
      var popped := s.(link := s.link.(events := s.link.events[1..]));
      ServiceEvents(HandleEvent(popped, s.link.events[0], input), input)
  }

  /** A new connection starts with an empty record; a second session.created spoils it. */
  function NoteSession(s: Runtime, socket: Transport.SocketInput): History {
    if socket == Transport.Opened && s.link.socket == Transport.Handshake
    then s.past.(unmuted := false, reopened := false, recreated := false)
    else if socket == Transport.Text(Transport.SessionCreated) && s.link.socket == Transport.Up
            && s.link.status != Transport.AwaitingSession
    then s.past.(recreated := true)
    else s.past
  }

  /** Lines 429-432: poll the socket and handle what it queued. */
  function PollProvider(s: Runtime, input: Input): Runtime {
    if s.link.status == Transport.Idle then ServiceEvents(s, input) else
      ServiceEvents(s.(link := Transport.Poll(s.link, input.socket), past := NoteSession(s, input.socket)), input)
  }

  /** Lines 471-487: the player's failure, the response timeout, and completion of a played reply. */
  function SupervisePlayer(s: Runtime, input: Input): Runtime {
    if s.turn == Playing && s.audio.player.x.failed then FailRuntime(s, input.now)
    else if (s.turn == WaitingResponse || s.turn == Playing)
            && Elapsed(input.now, s.timers.response) >= PROVIDER_RESPONSE_TIMEOUT_MS
    then FailRuntime(s, input.now)
    else
      var r := s.(audio := Observe(s.audio));
      if r.audio.speaker && r.responseDone && r.audioDone && r.audio.player.x.drained
      then CompleteTurn(r, input) else r
  }

  /** Lines 448-487: failures of the transport, then the player's part. */
  function SuperviseTurn(s: Runtime, input: Input): Runtime {
    if s.link.status == Transport.ProviderError || s.link.status == Transport.ProtocolError
    then FailRuntime(s, input.now)
    else if s.link.status == Transport.Disconnected && s.turn != Error then FailRuntime(s, input.now)
    else SupervisePlayer(s.(audio := Observe(s.audio)), input)
  }

  function ServiceProvider(s: Runtime, input: Input): Runtime {
    var r := PollProvider(s, input);
    if r.turn == ConnectingProvider && r.link.status == Transport.Ready then r.(turn := Idle)
    else if r.turn == ConnectingProvider
            && Elapsed(input.now, r.timers.provider) >= PROVIDER_CONNECT_TIMEOUT_MS
    then FailRuntime(r, input.now)
    else SuperviseTurn(r, input)
  }

  function ServiceButton(s: Runtime, input: Input): Runtime {
    if input.button == Pressed && s.turn == Idle then BeginRecording(s, input)
    else if input.button == Released && s.turn == RecordingAndStreaming then FinishRecording(s, input)
    else s
  }

  function StartProviderConnection(s: Runtime, input: Input): Runtime {
    var r := s.(link := Transport.Begin(s.link, input.sessionValid));
    if !input.sessionValid then FailRuntime(r, input.now)
    else r.(timers := s.timers.(provider := U32(input.now)), past := s.past.(since := input.now))
  }

  function ServiceNetwork(s: Runtime, input: Input): Runtime {
    match s.turn
    case ConnectingWifi =>
      if input.wifi
      then s.(turn := SyncingClock, timers := s.timers.(clock := U32(input.now)),
              past := s.past.(since := input.now))
      else if Elapsed(input.now, s.timers.wifi) >= WIFI_CONNECT_TIMEOUT_MS then FailRuntime(s, input.now)
      else s
    case SyncingClock =>
      if !input.wifi then FailRuntime(s, input.now)
      else if input.clock then StartProviderConnection(s.(turn := ConnectingProvider), input)
      else if Elapsed(input.now, s.timers.clock) >= CLOCK_SYNC_TIMEOUT_MS then FailRuntime(s, input.now)
      else s
    case Error =>
      if Elapsed(input.now, s.timers.error) >= RUNTIME_RETRY_DELAY_MS
      then s.(turn := ConnectingWifi, timers := s.timers.(wifi := U32(input.now)),
              past := s.past.(since := input.now))
      else s
    case Unconfigured => s
    case _ => if !input.wifi then FailRuntime(s, input.now) else s
  }

  /** How the threads interleave and what the socket does in this loop are the environment's. */
  function Environment(s: Runtime, input: Input): Runtime {
    s.(audio := s.audio.(schedules := input.schedules), link := s.link.(outcomes := input.outcomes))
  }

  function Loop(s: Runtime, input: Input): Runtime {
    ServiceRecording(
      ServiceButton(
        ServiceProvider(
          ServiceNetwork(Environment(s, input), input), input), input), input)
  }

  const SILENT: Audio := Audio(false, false, Playback.INITIAL, [])

  /** setup() with a stored configuration. */
  function Boot(now: nat): Runtime {
    Runtime(ConnectingWifi, Transport.Link(Transport.Idle, true, [], Transport.Down, [], []), SILENT,
            Timers(U32(now), 0, 0, 0, 0, 0), false, false, 0, 0,
            History(now, false, false, [], false, false, false, []))
  }

  function Run(boot: nat, inputs: seq<Input>): Runtime {
    if inputs == [] then Boot(boot) else Loop(Run(boot, inputs[..|inputs| - 1]), inputs[|inputs| - 1])
  }
}
