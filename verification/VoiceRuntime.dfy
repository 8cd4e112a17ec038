/**
 The runtime object: globals and service functions of esp32_voice_kit.ino. Each service function is tied to its
 namesake of TurnRuntime; LoopOnce keeps the object in the state of a run and so gets what every run guarantees.
 */
module VoiceRuntimes {
  import opened Common
  import opened VoiceTurn
  import opened TurnRuntime
  import opened TurnInvariant
  import Transport = RealtimeTransport
  import Protocol = SessionProtocol
  import Playback = PlaybackMachine
  import Calls = PlaybackCalls

  class VoiceRuntime {
    const machine: VoiceTurnMachine
    const transport: Transport.RealtimeVoiceTransport
    var microphoneRunning: bool
    var speakerRunning: bool
    var player: Playback.State
    var schedules: seq<seq<Calls.Slice>>
    var timers: Timers
    var responseDoneReceived: bool
    var outputAudioDoneReceived: bool
    var captureSamples: nat
    var streamedFrames: nat
    ghost var past: History
    ghost const boot: nat              // when setup() ran
    ghost var inputs: seq<Input>       // what the loops since then have met

    ghost function State(): Runtime
      reads this, machine, transport
    {
      Runtime(machine.state, transport.Value(), Audio(microphoneRunning, speakerRunning, player, schedules), timers,
              responseDoneReceived, outputAudioDoneReceived, captureSamples, streamedFrames, past)
    }

    /** The object is in the state of a run. */
    ghost predicate Valid()
      reads this, machine, transport
    {
      State() == Run(boot, inputs)
    }

    constructor (now: nat)
      ensures Valid() && boot == now && inputs == [] && fresh(machine) && fresh(transport)
    {
      machine := new VoiceTurnMachine();
      transport := new Transport.RealtimeVoiceTransport();
      microphoneRunning, speakerRunning := false, false;
      player, schedules := Playback.INITIAL, [];
      timers := Timers(U32(now), 0, 0, 0, 0, 0);
      responseDoneReceived, outputAudioDoneReceived, captureSamples, streamedFrames := false, false, 0, 0;
      past := History(now, false, false, [], false, false, false, []);
      boot, inputs := now, [];
      new;
      var _ := machine.Apply(ConfigLoaded);
    }

    ghost function Bus(): Audio
      reads this
    {
      Audio(microphoneRunning, speakerRunning, player, schedules)
    }

    /** One operation of the player, interleaved as the next schedule says. */
    method CallPlayerNow(call: Playback.Call)
      modifies this`player, this`schedules
      ensures Bus() == CallPlayer(old(Bus()), call)
    {
      player := Calls.Called(player, call, NextSchedule(Audio(microphoneRunning, speakerRunning, player, schedules)));
      schedules := if schedules == [] then [] else schedules[1..];
    }

    /** The playback task runs on until one of its flags is read. */
    method ObservePlayer()
      modifies this`player, this`schedules
      ensures Bus() == Observe(old(Bus()))
    {
      player := Calls.Interleave(player, NextSchedule(Audio(microphoneRunning, speakerRunning, player, schedules)));
      schedules := if schedules == [] then [] else schedules[1..];
    }

    method ReportPlayerFailure()
      modifies this`player
      ensures Bus() == ReportFailure(old(Bus()))
    {
      player := Playback.StartCall(player, Playback.ReportFailure(true));
    }

    method StopAudioBus()
      modifies this
      ensures State() == old(State()).(audio := StopAudio(old(State()).audio))
    {
      hide CallPlayer;
      if !microphoneRunning && !speakerRunning {
        return;
      }
      if speakerRunning {
        CallPlayerNow(Playback.Cancel);
      }
      microphoneRunning := false;
      speakerRunning := false;
    }

    method Fail(now: nat)
      modifies this, machine, transport
      ensures State() == FailRuntime(old(State()), now)
    {
      StopAudioBus();
      transport.CloseSession();
      var _ := machine.Apply(Failure);
      timers := timers.(error := U32(now));
      past := past.(since := now);
    }

    method StartMicrophoneBus(ok: bool)
      modifies this
      ensures State() == old(State()).(audio := StartMicrophone(old(State()).audio, ok))
    {
      StopAudioBus();
      microphoneRunning := ok;
    }

    method StartSpeakerBus(ok: bool) returns (running: bool)
      modifies this
      ensures State() == old(State()).(audio := StartSpeaker(old(State()).audio, ok))
      ensures running == (old(speakerRunning) || ok)
    {
      if speakerRunning {
        return true;
      }
      StopAudioBus();
      speakerRunning := ok;
      return speakerRunning;
    }

    method StartInputNow(input: Input)
      requires machine.state == RecordingAndStreaming
      modifies this, machine, transport
      ensures State() == StartInput(old(State()), input)
    {
      hide FailRuntime, Transport.Close, StopAudio, Transport.SendText;
      StartMicrophoneBus(input.microphoneStarts);
      if !microphoneRunning {
        Fail(input.now);
        return;
      }
      var sent := transport.SendMessage(Transport.Unmute);
      if !sent {
        Fail(input.now);
        return;
      }
      timers := timers.(recording := U32(input.now));
      past := past.(since := input.now, interrupted := false, reopened := past.reopened || past.unmuted);
    }

    method BeginRecordingTurn(input: Input)
      modifies this, machine, transport
      ensures State() == BeginRecording(old(State()), input)
    {
      hide StartInput, Next, Accepts;
      PressTaken(machine.state);
      if transport.status != Transport.Ready {
        return;
      }
      var accepted := machine.Apply(ButtonPressed);
      if !accepted {
        return;
      }
      responseDoneReceived, outputAudioDoneReceived := false, false;
      captureSamples, streamedFrames := 0, 0;
      StartInputNow(input);
    }

    method CommitInputNow() returns (ok: bool)
      modifies transport
      ensures (transport.Value(), ok) == CommitInput(old(transport.Value()))
    {
      if transport.status != Transport.Ready {
        return false;
      }
      ok := transport.SendMessage(Transport.Commit);
      if ok {
        ok := transport.SendMessage(Transport.Mute);
      }
    }

    /** The mute of a recording too short to commit. */
    method CancelRecordingNow()
      requires machine.state == RecordingAndStreaming
      modifies this, machine, transport
      ensures State() == CancelRecording(old(State()))
    {
      ghost var sent := Transport.Outcome(transport.Value()) == Transport.Sent;
      if transport.status == Transport.Ready {
        var _ := transport.SendMessage(Transport.Mute);
      }
      past := past.(unmuted := past.unmuted || (transport.socket == Transport.Up && !sent));
      var _ := machine.Apply(RecordingCancelled);
    }

    method FinishRecordingTurn(input: Input)
      modifies this, machine, transport
      ensures State() == FinishRecording(old(State()), input)
    {
      hide FailRuntime, CommitInput, CancelRecording, Elapsed;
      if machine.state != RecordingAndStreaming {
        return;
      }
      StopAudioBus();
      if Elapsed(input.now, timers.recording) < MINIMUM_RECORDING_MS || streamedFrames == 0 {
        CancelRecordingNow();
        return;
      }
      var committed := CommitInputNow();
      if committed {
        committed := machine.Apply(ButtonReleased);
      }
      if !committed {
        Fail(input.now);
        return;
      }
      timers := timers.(response := U32(input.now));
      past := past.(since := input.now, heard := false);
    }

    method ServiceRecordingNow(input: Input)
      modifies this, machine, transport
      ensures State() == ServiceRecording(old(State()), input)
    {
      hide FailRuntime, FinishRecording, Transport.SendText, Elapsed;
      if machine.state != RecordingAndStreaming || !microphoneRunning {
        return;
      }
      if Elapsed(input.now, timers.recording) >= MAXIMUM_RECORDING_MS {
        FinishRecordingTurn(input);
        return;
      }
      if captureSamples < SAMPLES_PER_FRAME {
        var bytes := Min(input.readBytes, 4 * (SAMPLES_PER_FRAME - captureSamples));
        if bytes == 0 || bytes % 4 != 0 {
          Fail(input.now);
          return;
        }
        captureSamples := captureSamples + bytes / 4;
      }
      if captureSamples != SAMPLES_PER_FRAME || !input.due {
        return;
      }
      var sent := false;
      if transport.status == Transport.Ready {
        sent := transport.SendMessage(Transport.Append);
      }
      if !sent {
        Fail(input.now);
        return;
      }
      captureSamples := 0;
      streamedFrames := streamedFrames + 1;
    }

    method BeginPlaybackNow(input: Input) returns (ok: bool)
      modifies this
      ensures (State(), ok) == BeginPlayback(old(State()), input)
    {
      hide CallPlayer, StopAudio, ReportFailure;
      if speakerRunning {
        return true;
      }
      var running := StartSpeakerBus(input.speakerStarts);
      if !running {
        ReportPlayerFailure();
        return false;
      }
      CallPlayerNow(Playback.BeginTurn);
      past := past.(fed := []);
      return player.c.result;
    }

    method EnqueueAudioNow(pcm: seq<byte>) returns (ok: bool)
      modifies this, machine
      ensures (State(), ok) == EnqueueAudio(old(State()), pcm)
    {
      hide CallPlayer;
      ghost var recording := machine.state == RecordingAndStreaming;
      if machine.state == WaitingResponse {
        var _ := machine.Apply(OutputAudioStarted);
      }
      CallPlayerNow(Playback.Enqueue(pcm));
      ok := player.c.result;
      if ok {
        past := past.(heard := true, fed := past.fed + pcm, interrupted := past.interrupted || recording);
      }
    }

    /** writeOutputAudio; the caller fails the runtime when it reports failure. */
    method WriteAudio(pcm: Option<seq<byte>>, input: Input) returns (ok: bool)
      modifies this, machine
      ensures ok ==> State() == WriteOutputAudio(old(State()), pcm, input)
      ensures !ok ==> FailRuntime(State(), input.now) == WriteOutputAudio(old(State()), pcm, input)
    {
      hide BeginPlayback, EnqueueAudio, FailRuntime;
      if pcm == None || pcm.value == [] || |pcm.value| % 2 != 0 {
        ReportPlayerFailure();
        return false;
      }
      ok := BeginPlaybackNow(input);
      if ok {
        ok := EnqueueAudioNow(pcm.value);
      }
    }

    method Complete(input: Input)
      modifies this, machine, transport
      ensures State() == CompleteTurn(old(State()), input)
    {
      ghost var done := Completion(machine.state, past.heard, responseDoneReceived, outputAudioDoneReceived,
                                   past.fed, player);
      StopAudioBus();
      var accepted := machine.Apply(ResponseDone);
      if !accepted {
        Fail(input.now);
        return;
      }
      past := past.(completions := past.completions + [done]);
    }

    method HandleServerEvent(e: Transport.Event, input: Input)
      modifies this, machine, transport
      ensures State() == HandleEvent(old(State()), e, input)
    {
      hide FailRuntime, CompleteTurn, WriteOutputAudio, CallPlayer;
      match e {
        case AudioStarted =>
          if machine.state == WaitingResponse {
            var _ := machine.Apply(OutputAudioStarted);
          }
        case AudioDelta(pcm) =>
          var ok := WriteAudio(pcm, input);
          if !ok {
            Fail(input.now);
          }
        case AudioDone =>
          outputAudioDoneReceived := true;
          CallPlayerNow(Playback.FinishInput);
        case ResponseDone =>
          responseDoneReceived := true;
          if !speakerRunning {
            Complete(input);
          }
        case ResponseFailed => Fail(input.now);
        case ErrorReported => Fail(input.now);
        case Malformed => Fail(input.now);
        case _ =>
      }
    }

    method ServiceEventsNow(input: Input)
      modifies this, machine, transport
      ensures State() == ServiceEvents(old(State()), input)
    {
      hide HandleEvent;
      while transport.events != []
        invariant ServiceEvents(State(), input) == ServiceEvents(old(State()), input)
        decreases |transport.events|
      {
        var _, e := transport.PopEvent();
        HandleServerEvent(e, input);
      }
    }

    method ServiceProviderNow(input: Input)
      modifies this, machine, transport
      ensures State() == ServiceProvider(old(State()), input)
    {
      hide ServiceEvents, SuperviseTurn, FailRuntime, Transport.Poll, Elapsed;
      if transport.status != Transport.Idle {
        past := NoteSession(State(), input.socket);
        transport.Loop(input.socket);
      }
      ServiceEventsNow(input);
      if machine.state == ConnectingProvider {
        if transport.status == Transport.Ready {
          var _ := machine.Apply(ProviderConnected);
          return;
        }
        if Elapsed(input.now, timers.provider) >= PROVIDER_CONNECT_TIMEOUT_MS {
          Fail(input.now);
          return;
        }
      }
      Supervise(input);
    }

    method Supervise(input: Input)
      modifies this, machine, transport
      ensures State() == SuperviseTurn(old(State()), input)
    {
      if transport.status == Transport.ProviderError {
        Fail(input.now);
        return;
      }
      if transport.status == Transport.ProtocolError {
        Fail(input.now);
        return;
      }
      if transport.status == Transport.Disconnected && machine.state != Error {
        Fail(input.now);
        return;
      }
      ObservePlayer();
      SupervisePlayerNow(input);
    }

    method SupervisePlayerNow(input: Input)
      modifies this, machine, transport
      ensures State() == SupervisePlayer(old(State()), input)
    {
      hide FailRuntime, CompleteTurn, Observe, Elapsed;
      if machine.state == Playing && player.x.failed {
        Fail(input.now);
        return;
      }
      if (machine.state == WaitingResponse || machine.state == Playing)
         && Elapsed(input.now, timers.response) >= PROVIDER_RESPONSE_TIMEOUT_MS
      {
        Fail(input.now);
        return;
      }
      ObservePlayer();
      if speakerRunning && responseDoneReceived && outputAudioDoneReceived && player.x.drained {
        Complete(input);
      }
    }

    method ServiceButtonNow(input: Input)
      modifies this, machine, transport
      ensures State() == ServiceButton(old(State()), input)
    {
      if input.button == Pressed && machine.state == Idle {
        BeginRecordingTurn(input);
      } else if input.button == Released && machine.state == RecordingAndStreaming {
        FinishRecordingTurn(input);
      }
    }

    method StartConnection(input: Input)
      modifies this, machine, transport
      ensures State() == StartProviderConnection(old(State()), input)
    {
      var ok := transport.BeginSession(input.sessionValid);
      if !ok {
        Fail(input.now);
        return;
      }
      timers := timers.(provider := U32(input.now));
      past := past.(since := input.now);
    }

    /** Lines 515-529. */
    method ServiceWifi(input: Input)
      requires machine.state == ConnectingWifi
      modifies this, machine, transport
      ensures State() == ServiceNetwork(old(State()), input)
    {
      hide FailRuntime, StartProviderConnection, Elapsed, Transport.RealtimeVoiceTransport.Value;
      if input.wifi {
        var _ := machine.Apply(WifiConnected);
        timers := timers.(clock := U32(input.now));
        past := past.(since := input.now);
        return;
      }
      if Elapsed(input.now, timers.wifi) >= WIFI_CONNECT_TIMEOUT_MS {
        Fail(input.now);
      }
    }

    /** Lines 531-546. */
    method ServiceClock(input: Input)
      requires machine.state == SyncingClock
      modifies this, machine, transport
      ensures State() == ServiceNetwork(old(State()), input)
    {
      hide FailRuntime, StartProviderConnection, Elapsed, Transport.RealtimeVoiceTransport.Value;
      if !input.wifi {
        Fail(input.now);
        return;
      }
      if input.clock {
        var _ := machine.Apply(ClockSynchronized);
        StartConnection(input);
        return;
      }
      if Elapsed(input.now, timers.clock) >= CLOCK_SYNC_TIMEOUT_MS {
        Fail(input.now);
      }
    }

    method ServiceNetworkNow(input: Input)
      modifies this, machine, transport
      ensures State() == ServiceNetwork(old(State()), input)
    {
      hide FailRuntime, StartProviderConnection, Elapsed, Transport.RealtimeVoiceTransport.Value;
      if machine.state == ConnectingWifi {
        ServiceWifi(input);
        return;
      }
      if machine.state == SyncingClock {
        ServiceClock(input);
        return;
      }
      if (machine.state == ConnectingProvider || machine.state == Idle
          || machine.state == RecordingAndStreaming || machine.state == WaitingResponse
          || machine.state == Playing) && !input.wifi
      {
        Fail(input.now);
        return;
      }
      if machine.state == Error && Elapsed(input.now, timers.error) >= RUNTIME_RETRY_DELAY_MS {
        var _ := machine.Apply(Recover);
        timers := timers.(wifi := U32(input.now));
        past := past.(since := input.now);
      }
    }

    /** loop(): the services in turn, on the state after the environment moved. */
    method ServiceAll(input: Input)
      modifies this, machine, transport
      ensures State() == Loop(old(State()), input)
    {
      hide ServiceNetwork, ServiceProvider, ServiceButton, ServiceRecording;
      schedules := input.schedules;
      transport.outcomes := input.outcomes;
      assert State() == Environment(old(State()), input);
      ServiceNetworkNow(input);
      ServiceProviderNow(input);
      ServiceButtonNow(input);
      ServiceRecordingNow(input);
    }

    /**
     After any number of loops in any environment: half duplex, an empty event queue, messages in order unless an
     unmute followed a lost mute, and nothing but proper completions.
     */
    method LoopOnce(input: Input)
      requires Valid()
      modifies this, machine, transport
      ensures Valid() && inputs == old(inputs) + [input]
      ensures !(microphoneRunning && speakerRunning) && (microphoneRunning ==> machine.state == RecordingAndStreaming)
      ensures transport.events == []
      ensures !past.recreated ==> (Protocol.PhaseOf(transport.sent) == Protocol.Broken <==> past.reopened)
      ensures forall i :: 0 <= i < |past.completions| ==> ProperCompletion(past.completions[i])
      ensures machine.state == RecordingAndStreaming ==> (microphoneRunning <==> !past.interrupted)
    {
      hide Loop, Run, ProperCompletion;
      ghost var met := inputs + [input];
      RunStep(boot, inputs, input);
      ServiceAll(input);
      inputs := met;
      RunKeeps(boot, inputs);
      KeptBy(State());
    }
  }

  lemma {:induction false} PressTaken(t: TurnState)
    ensures Next(t, ButtonPressed) == if Accepts(t, ButtonPressed) then RecordingAndStreaming else t
  {
  }

  /** The invariants, read for the object's fields. */
  lemma {:induction false} KeptBy(s: Runtime)
    requires Inv(s) && Settled(s)
    ensures !(s.audio.microphone && s.audio.speaker) && (s.audio.microphone ==> s.turn == RecordingAndStreaming)
    ensures s.link.events == []
    ensures !s.past.recreated ==> (Protocol.PhaseOf(s.link.sent) == Protocol.Broken <==> s.past.reopened)
    ensures forall i :: 0 <= i < |s.past.completions| ==> ProperCompletion(s.past.completions[i])
    ensures s.turn == RecordingAndStreaming ==> (s.audio.microphone <==> !s.past.interrupted)
  {
    hide ProperCompletion, Sane, Fed, InPhase;
  }
}
