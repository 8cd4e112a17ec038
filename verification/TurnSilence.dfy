/** Whenever the speaker is off the player's turn is over, so nothing of a reply is played on. */
module TurnSilence {
  import opened Common
  import opened VoiceTurn
  import opened TurnRuntime
  import opened TurnInvariant
  import opened TurnAudio
  import opened TurnReactions
  import Transport = RealtimeTransport
  import Playback = PlaybackMachine
  import Threads = PlaybackInvariant
  import Calls = PlaybackCalls
  import Cancel = PlaybackCancel

  predicate Silent(a: Audio) {
    !a.speaker ==> !a.player.x.active
  }

  lemma {:induction false} StopSilences(a: Audio)
    requires Sane(a.player) && Silent(a)
    ensures var b := StopAudio(a); !b.speaker && Sane(b.player) && !b.player.x.active
  {
    hide Threads.Inv, Calls.Called;
    StopAudioKeeps(a);
    if a.speaker {
      Calls.CallServes(a.player, Playback.Cancel, NextSchedule(a));
    }
  }

  /** The same for what a failure or a new direction stops. */
  lemma {:induction false} FailSilences(s: Runtime, now: nat)
    requires Sane(s.audio.player) && Silent(s.audio)
    ensures !FailRuntime(s, now).audio.speaker && !FailRuntime(s, now).audio.player.x.active
  {
    hide Sane, StopAudio, Transport.Close;
    StopSilences(s.audio);
  }

  lemma {:induction false} RestStaysOver(p: Playback.State, schedule: seq<Calls.Slice>)
    requires p.c.pc == Playback.Ready
    ensures Calls.Interleave(p, schedule).x.active ==> p.x.active
    decreases |schedule|
  {
    hide Playback.TaskStep;
    if schedule != [] {
      match schedule[0]
      case TaskSlice(io) =>
        Threads.TaskStepFrame(p, io);
        RestStaysOver(Playback.TaskStep(p, io), schedule[1..]);
      case CallerSlice(io) => RestStaysOver(p, schedule[1..]);
    }
  }

  lemma {:induction false} ObserveSilences(a: Audio)
    requires Sane(a.player) && Silent(a)
    ensures Silent(Observe(a))
  {
    hide Threads.Inv, Calls.Interleave;
    RestStaysOver(a.player, NextSchedule(a));
  }

  lemma {:induction false} BeginSilences(s: Runtime, input: Input)
    requires Sane(s.audio.player) && Silent(s.audio)
    ensures Silent(BeginPlayback(s, input).0.audio)
  {
    hide StopAudio, CallPlayer, Sane;
    StopSilences(s.audio);
    var a := StartSpeaker(s.audio, input.speakerStarts);
    if !s.audio.speaker && a.speaker {
      CallKeeps(a, Playback.BeginTurn);
    }
  }

  lemma {:induction false} WriteSilences(s: Runtime, pcm: Option<seq<byte>>, input: Input)
    requires AudioInv(s) && Silent(s.audio)
    ensures Silent(WriteOutputAudio(s, pcm, input).audio)
  {
    hide StopAudio, CallPlayer, BeginPlayback, FailRuntime, Sane, Silent, Fed;
    ReportSilences(s, input.now);
    if Playable(pcm) {
      BeginPlaybackKeeps(s, input);
      BeginSilences(s, input);
      var (begun, playing) := BeginPlayback(s, input);
      FailLeavesSilent(begun, input.now);
      if playing {
        CallKeeps(begun.audio, Playback.Enqueue(pcm.value));
        var queued := EnqueueAudio(begun, pcm.value).0;
        SpeakerIsSilent(queued.audio);
        FailLeavesSilent(queued, input.now);
      }
    }
  }

  lemma {:induction false} SpeakerIsSilent(a: Audio)
    ensures a.speaker ==> Silent(a)
  {
  }

  lemma {:induction false} FailLeavesSilent(s: Runtime, now: nat)
    requires Sane(s.audio.player) && Silent(s.audio)
    ensures Silent(FailRuntime(s, now).audio)
  {
    hide FailRuntime, Sane;
    FailSilences(s, now);
  }

  lemma {:induction false} ReportSilences(s: Runtime, now: nat)
    requires Sane(s.audio.player) && Silent(s.audio)
    ensures Silent(FailRuntime(s.(audio := ReportFailure(s.audio)), now).audio)
  {
    hide FailRuntime, Sane;
    ReportKeeps(s.audio);
    FailSilences(s.(audio := ReportFailure(s.audio)), now);
  }

  lemma {:induction false} CompleteSilences(s: Runtime, input: Input)
    requires Sane(s.audio.player) && Silent(s.audio)
    ensures Silent(CompleteTurn(s, input).audio)
  {
    hide StopAudio, FailRuntime, Sane;
    StopSilences(s.audio);
    FailSilences(s.(audio := StopAudio(s.audio)), input.now);
  }

  lemma {:induction false} EventSilences(s: Runtime, e: Transport.Event, input: Input)
    requires AudioInv(s) && Silent(s.audio)
    ensures Silent(HandleEvent(s, e, input).audio)
  {
    hide FailRuntime, WriteOutputAudio, CompleteTurn, CallPlayer, Sane;
    FailSilences(s, input.now);
    match e
    case AudioDelta(pcm) => WriteSilences(s, pcm, input);
    case AudioDone => CallKeeps(s.audio, Playback.FinishInput);
    case ResponseDone => CompleteSilences(s.(responseDone := true), input);
    case _ =>
  }

  lemma {:induction false} PollSilences(s: Runtime, input: Input)
    requires Inv(s) && Settled(s) && Silent(s.audio)
    ensures Silent(PollProvider(s, input).audio)
  {
    hide HandleEvent, Transport.Poll, Transport.OnText, OrderInv, Sane, ProperCompletion, Silent;
    if s.link.status != Transport.Idle {
      PollKeepsLink(s, input.socket);
      var t := s.(link := Transport.Poll(s.link, input.socket), past := NoteSession(s, input.socket));
      if t.link.events != [] {
        OneEvent(t, input);
        var popped := t.(link := t.link.(events := []));
        assert AudioInv(popped);
        EventSilences(popped, t.link.events[0], input);
      }
    }
  }

  lemma {:induction false} SuperviseSilences(s: Runtime, input: Input)
    requires Inv(s) && Silent(s.audio)
    ensures Silent(SuperviseTurn(s, input).audio)
  {
    hide FailRuntime, CompleteTurn, Observe, Elapsed, Sane, Silent, LinkInv, OrderInv, CompletionsInv, TimerInv;
    FailLeavesSilent(s, input.now);
    ObserveKeeps(s.audio);
    ObserveSilences(s.audio);
    var o := s.(audio := Observe(s.audio));
    FailLeavesSilent(o, input.now);
    ObserveKeeps(o.audio);
    ObserveSilences(o.audio);
    CompleteSilences(o.(audio := Observe(o.audio)), input);
  }

  lemma {:induction false} ButtonSilences(s: Runtime, input: Input)
    requires Sane(s.audio.player) && Silent(s.audio)
    ensures Silent(ServiceButton(s, input).audio)
  {
    hide StopAudio, Transport.Close, Transport.SendText, CommitInput, Elapsed, Sane;
    StopSilences(s.audio);
    StopSilences(StopAudio(s.audio).(microphone := input.microphoneStarts));
    StopSilences(StopAudio(s.audio));
  }

  lemma {:induction false} RecordingSilences(s: Runtime, input: Input)
    requires Sane(s.audio.player) && s.captured <= SAMPLES_PER_FRAME && Silent(s.audio)
    ensures Silent(ServiceRecording(s, input).audio)
  {
    hide StopAudio, Transport.Close, Transport.SendText, CommitInput, Elapsed, Sane;
    StopSilences(s.audio);
    StopSilences(StopAudio(s.audio));
  }

  lemma {:induction false} NetworkSilences(s: Runtime, input: Input)
    requires Sane(s.audio.player) && Silent(s.audio)
    ensures Silent(ServiceNetwork(s, input).audio)
  {
    hide StopAudio, Transport.Close, Elapsed, Sane;
    StopSilences(s.audio);
  }

  lemma {:induction false} ProviderSilences(s: Runtime, input: Input)
    requires Inv(s) && Settled(s) && Silent(s.audio)
    ensures Silent(ServiceProvider(s, input).audio)
  {
    hide PollProvider, SuperviseTurn, FailRuntime, Elapsed, Inv, Settled, Silent;
    PollSilences(s, input);
    PollProviderKeeps(s, input);
    InvSane(PollProvider(s, input));
    FailLeavesSilent(PollProvider(s, input), input.now);
    SuperviseSilences(PollProvider(s, input), input);
  }

  lemma {:induction false} LoopSilences(s: Runtime, input: Input)
    requires Inv(s) && Settled(s) && Silent(s.audio)
    ensures Silent(Loop(s, input).audio)
  {
    hide Loop, Environment, ServiceNetwork, ServiceProvider, ServiceButton, ServiceRecording, Inv, Settled, Sane;
    var u, t := LoopFrom(s, input);
    InvSane(u);
    NetworkSilences(u, input);
    ProviderSilences(t, input);
    ProviderKeeps(t, input);
    var v := ServiceProvider(t, input);
    InvSane(v);
    ButtonSilences(v, input);
    ButtonKeeps(v, input);
    InvSane(ServiceButton(v, input));
    CapturedBounded(ServiceButton(v, input));
    RecordingSilences(ServiceButton(v, input), input);
  }

  /** After any run, with the speaker off the player's turn is over. */
  lemma {:induction false} SpeakerOffIsOver(boot: nat, inputs: seq<Input>)
    ensures var s := Run(boot, inputs); !s.audio.speaker ==> !s.audio.player.x.active && Cancel.Over(s.audio.player)
  {
    hide Inv, Settled;
    RunSilences(boot, inputs);
    RunKeeps(boot, inputs);
    InvSane(Run(boot, inputs));
  }

  lemma {:induction false} RunSilences(boot: nat, inputs: seq<Input>)
    ensures Silent(Run(boot, inputs).audio)
  {
    if inputs != [] {
      hide Loop, Inv, Settled, Silent;
      RunSilences(boot, inputs[..|inputs| - 1]);
      RunKeeps(boot, inputs[..|inputs| - 1]);
      LoopSilences(Run(boot, inputs[..|inputs| - 1]), inputs[|inputs| - 1]);
    }
  }
}
