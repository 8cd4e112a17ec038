/**
 Where the outbound order stops: the mute that ends a too short recording is sent without looking at
 its result, so a send that fails with the socket still up leaves the server unmuted.
 */
module TurnRaces {
  import opened Common
  import opened VoiceTurn
  import opened TurnRuntime
  import opened TurnInvariant
  import Transport = RealtimeTransport
  import Protocol = SessionProtocol
  import Playback = PlaybackMachine
  import Calls = PlaybackCalls

  const STEADY_INPUT: Input := Input(0, true, true, true, Transport.Quiet, [], [], true, true, Steady, 1280, false)

  /** Two silent samples. */
  const SOUND: seq<byte> := [0, 0]

  function Socket(socket: Transport.SocketInput): Input {
    STEADY_INPUT.(socket := socket, outcomes := [Transport.Sent])
  }

  function Press(button: Button, outcome: Transport.SendOutcome): Input {
    STEADY_INPUT.(button := button, outcomes := [outcome])
  }

  predicate Silent(s: Runtime) {
    s.link.events == [] && !s.audio.speaker && !s.audio.microphone && s.audio.player == Playback.INITIAL
  }

  lemma {:induction false} WifiLoop(s: Runtime)
    requires s.turn == ConnectingWifi && Silent(s) && s.link.status == Transport.Idle
    ensures var t := Loop(s, STEADY_INPUT);
      && t.turn == SyncingClock && Silent(t) && t.link == s.link.(outcomes := [])
  {
    hide FailRuntime, FinishRecording, BeginRecording, StreamFrame, HandleEvent, CompleteTurn, Transport.OnText;
  }

  lemma {:induction false} ClockLoop(s: Runtime)
    requires s.turn == SyncingClock && Silent(s) && s.link.status == Transport.Idle && s.link.socket == Transport.Down
    ensures var t := Loop(s, Socket(Transport.Connects));
      && t.turn == ConnectingProvider && Silent(t) && t.timers.provider == 0
      && t.link.status == Transport.Connecting && t.link.socket == Transport.Handshake && !t.link.closing
  {
    hide FailRuntime, FinishRecording, BeginRecording, StreamFrame, HandleEvent, CompleteTurn, Transport.OnText;
  }

  lemma {:induction false} OpenLoop(s: Runtime)
    requires s.turn == ConnectingProvider && Silent(s) && s.timers.provider == 0
    requires s.link.socket == Transport.Handshake && s.link.status == Transport.Connecting && !s.link.closing
    ensures var t := Loop(s, Socket(Transport.Opened));
      && t.turn == ConnectingProvider && Silent(t) && t.timers.provider == 0
      && t.link.status == Transport.AwaitingSession && t.link.socket == Transport.Up
      && t.link.sent == [] + [Transport.SessionCreate] && !t.past.recreated && !t.past.unmuted && !t.past.reopened
      && !t.link.closing
  {
    hide FailRuntime, FinishRecording, BeginRecording, StreamFrame, HandleEvent, CompleteTurn, Transport.OnText;
    hide StartProviderConnection, Transport.Close, StopAudio, Elapsed;
    assert Elapsed(0, 0) == 0 by {
      ElapsedExact(0, 0);
    }
  }

  lemma {:induction false} SessionLoop(s: Runtime)
    requires s.turn == ConnectingProvider && Silent(s) && !s.past.recreated
    requires s.link.socket == Transport.Up && s.link.status == Transport.AwaitingSession
    ensures var t := Loop(s, Socket(Transport.Text(Transport.SessionCreated)));
      && t.turn == Idle && Silent(t)
      && t.link.status == Transport.Ready && t.link.socket == Transport.Up
      && t.link.sent == s.link.sent + [Transport.Mute] && t.link.closing == s.link.closing
      && !t.past.recreated && t.past.unmuted == s.past.unmuted && t.past.reopened == s.past.reopened
  {
    hide Transport.Close;
    var input := Socket(Transport.Text(Transport.SessionCreated));
    var e := Environment(s, input);
    var polled := e.(link := Transport.Poll(e.link, input.socket), past := NoteSession(e, input.socket));
    assert polled.link.events == [Transport.SessionCreated];
    var popped := polled.(link := polled.link.(events := polled.link.events[1..]));
    assert popped.link.events == [];
    assert ServiceEvents(polled, input) == ServiceEvents(popped, input) == popped;
  }

  /** A ready session that is told nothing, and a playback task that does not run. */
  predicate Undisturbed(s: Runtime, input: Input) {
    && (s.turn == Idle || s.turn == RecordingAndStreaming) && !Finished(s)
    && s.link.status == Transport.Ready && s.link.events == []
    && input.wifi && input.socket == Transport.Quiet && input.schedules == []
  }

  lemma {:induction false} NothingSeen(a: Audio)
    requires a.schedules == []
    ensures Observe(a) == a
  {
  }

  lemma {:induction false} NothingToSupervise(s: Runtime, input: Input)
    requires s.audio.schedules == [] && Undisturbed(s, input)
    ensures SuperviseTurn(s, input) == s
  {
    hide FailRuntime, CompleteTurn, Observe, Elapsed;
    NothingSeen(s.audio);
  }

  lemma {:induction false} NothingToServe(s: Runtime, input: Input)
    requires Undisturbed(s, input)
    ensures var e := Environment(s, input);
      Loop(s, input) == ServiceRecording(ServiceButton(e, input), input)
  {
    hide SuperviseTurn, ServiceButton, ServiceRecording, FailRuntime, Transport.OnText, HandleEvent, Elapsed;
    var e := Environment(s, input);
    NothingToSupervise(e, input);
    assert ServiceNetwork(e, input) == e;
    assert PollProvider(e, input) == e;
  }

  lemma {:induction false} PressLoop(s: Runtime)
    requires s.turn == Idle && Silent(s) && s.link.status == Transport.Ready && s.link.socket == Transport.Up
    ensures var t := Loop(s, Press(Pressed, Transport.Sent));
      && t.turn == RecordingAndStreaming && t.link.events == [] && !t.audio.speaker && t.frames == 0
      && t.audio.microphone && t.audio.player == Playback.INITIAL && !t.responseDone && !t.audioDone
      && t.captured == SAMPLES_PER_FRAME && t.timers.recording == 0
      && t.link.status == Transport.Ready && t.link.socket == Transport.Up && t.link.closing == s.link.closing
      && t.link.sent == s.link.sent + [Transport.Unmute] && t.past.unmuted == s.past.unmuted
      && t.past.recreated == s.past.recreated && t.past.reopened == (s.past.reopened || s.past.unmuted)
  {
    hide Loop, ServiceRecording;
    var input := Press(Pressed, Transport.Sent);
    NothingToServe(s, input);
    PressBegins(s);
    FirstSamples(ServiceButton(Environment(s, input), input), input);
  }

  lemma {:induction false} PressBegins(s: Runtime)
    requires s.turn == Idle && Silent(s) && s.link.status == Transport.Ready && s.link.socket == Transport.Up
    ensures var input := Press(Pressed, Transport.Sent); var t := ServiceButton(Environment(s, input), input);
      && t.turn == RecordingAndStreaming && t.link.events == [] && !t.audio.speaker && t.frames == 0
      && t.audio.microphone && t.audio.player == Playback.INITIAL && !t.responseDone && !t.audioDone
      && t.captured == 0 && t.timers.recording == 0
      && t.link.status == Transport.Ready && t.link.socket == Transport.Up && t.link.closing == s.link.closing
      && t.link.sent == s.link.sent + [Transport.Unmute] && t.past.unmuted == s.past.unmuted
      && t.past.recreated == s.past.recreated && t.past.reopened == (s.past.reopened || s.past.unmuted)
  {
    hide FailRuntime, FinishRecording, CallPlayer;
  }

  /** The first look at a recording fills its frame, which is not due. */
  lemma {:induction false} FirstSamples(s: Runtime, input: Input)
    requires s.turn == RecordingAndStreaming && s.captured == 0 && s.timers.recording == 0 && s.audio.microphone
    requires input.now == 0 && input.readBytes == 1280 && !input.due
    ensures ServiceRecording(s, input) == s.(captured := SAMPLES_PER_FRAME)
  {
    hide FailRuntime, FinishRecording;
  }

  lemma {:induction false} LostMuteLoop(s: Runtime)
    requires s.turn == RecordingAndStreaming && s.link.events == [] && !s.audio.speaker && s.frames == 0
    requires s.audio.player == Playback.INITIAL
    requires s.link.status == Transport.Ready && s.link.socket == Transport.Up
    ensures var t := Loop(s, Press(Released, Transport.Failed));
      && t.turn == Idle && Silent(t)
      && t.link.status == Transport.Ready && t.link.socket == Transport.Up
      && t.link.sent == s.link.sent && t.past.unmuted && t.past.recreated == s.past.recreated
  {
    hide Loop, CommitInput, StreamFrame, CallPlayer, FailRuntime;
    NothingToServe(s, Press(Released, Transport.Failed));
  }

  lemma {:induction false} RunOn(inputs: seq<Input>, input: Input) returns (next: seq<Input>)
    ensures Run(0, next) == Loop(Run(0, inputs), input)
  {
    hide Loop;
    next := inputs + [input];
    assert next[..|next| - 1] == inputs;
  }

  lemma {:induction false} Booted()
    ensures Run(0, []) == Boot(0)
  {
  }

  /** A run that reaches a ready, idle device. */
  lemma {:induction false} ReadyRun() returns (inputs: seq<Input>)
    ensures var s := Run(0, inputs);
      && s.turn == Idle && Silent(s) && s.link.status == Transport.Ready && s.link.socket == Transport.Up
      && s.link.sent == [Transport.SessionCreate, Transport.Mute] && !s.link.closing
      && !s.past.recreated && !s.past.unmuted && !s.past.reopened
  {
    hide Loop, Run;
    inputs := [];
    Booted();
    WifiLoop(Run(0, inputs));
    inputs := RunOn(inputs, STEADY_INPUT);
    ClockLoop(Run(0, inputs));
    inputs := RunOn(inputs, Socket(Transport.Connects));
    OpenLoop(Run(0, inputs));
    inputs := RunOn(inputs, Socket(Transport.Opened));
    SessionLoop(Run(0, inputs));
    inputs := RunOn(inputs, Socket(Transport.Text(Transport.SessionCreated)));
  }

  /** A run whose lost mute lets the next recording unmute a connection that is not muted. */
  lemma {:induction false} LostMuteBreaksOrder() returns (inputs: seq<Input>)
    ensures var s := Run(0, inputs); !s.past.recreated && s.past.reopened && PhaseNow(s) == Protocol.Broken
  {
    inputs := ReadyRun();
    hide Loop, Run;
    PressLoop(Run(0, inputs));
    inputs := RunOn(inputs, Press(Pressed, Transport.Sent));
    LostMuteLoop(Run(0, inputs));
    inputs := RunOn(inputs, Press(Released, Transport.Failed));
    PressLoop(Run(0, inputs));
    inputs := RunOn(inputs, Press(Pressed, Transport.Sent));
    var muted := [Transport.SessionCreate, Transport.Mute];
    assert Protocol.PhaseOf([]) == Protocol.Fresh && [] + [Transport.SessionCreate] == [Transport.SessionCreate];
    Protocol.PhaseOfSend([], Transport.SessionCreate);
    assert muted == [Transport.SessionCreate] + [Transport.Mute];
    Protocol.PhaseOfSend([Transport.SessionCreate], Transport.Mute);
    Protocol.PhaseOfSend(muted, Transport.Unmute);
    Protocol.PhaseOfSend(muted + [Transport.Unmute], Transport.Unmute);
  }
}
