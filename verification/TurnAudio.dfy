/**
 From the server's audio messages to the player: what the player has accepted is what the loops have read of the reply,
 octet for octet, and nothing else ever reaches it.
 */
module TurnAudio {
  import opened Common
  import opened VoiceTurn
  import opened TurnRuntime
  import opened TurnInvariant
  import Transport = RealtimeTransport
  import Playback = PlaybackMachine
  import Threads = PlaybackInvariant
  import Calls = PlaybackCalls
  import Records = PlaybackRecords

  function Accepted(s: Runtime): seq<byte> {
    s.audio.player.h.accepted
  }

  /** A whole, non-zero number of 16-bit samples. */
  predicate Samples(pcm: Option<seq<byte>>) {
    pcm.Some? && |pcm.value| >= 2 && |pcm.value| % 2 == 0
  }

  // ---------- what leaves the player's input alone ----------

  /** A completion of a turn in which the player had accepted `bytes`. */
  predicate CompletedWith(c: Completion, bytes: seq<byte>, speaker: bool) {
    c.player.h.accepted == bytes && (c.heard ==> speaker)
  }

  /** The player is given nothing, no reply is begun, and what completes meanwhile is the reply as it stands. */
  predicate Still(s: Runtime, t: Runtime) {
    && Accepted(t) == Accepted(s) && (t.audio.speaker ==> s.audio.speaker)
    && |s.past.completions| <= |t.past.completions|
    && (forall i :: 0 <= i < |s.past.completions| ==> t.past.completions[i] == s.past.completions[i])
    && (forall i :: |s.past.completions| <= i < |t.past.completions| ==>
          CompletedWith(t.past.completions[i], Accepted(s), s.audio.speaker))
  }

  lemma {:induction false} StillThen(s: Runtime, t: Runtime, u: Runtime)
    requires Still(s, t) && Still(t, u)
    ensures Still(s, u)
  {
    forall i | |s.past.completions| <= i < |u.past.completions|
      ensures CompletedWith(u.past.completions[i], Accepted(s), s.audio.speaker)
    {
      if i < |t.past.completions| {
        assert CompletedWith(t.past.completions[i], Accepted(s), s.audio.speaker);
      } else {
        assert CompletedWith(u.past.completions[i], Accepted(t), t.audio.speaker);
      }
    }
  }

  lemma {:induction false} StopStill(a: Audio)
    requires Sane(a.player)
    ensures StopAudio(a).player.h.accepted == a.player.h.accepted && Sane(StopAudio(a).player)
    ensures !StopAudio(a).speaker
  {
    hide Threads.Inv, Calls.Called;
    StopAudioKeeps(a);
    if a.speaker {
      Calls.CallServes(a.player, Playback.Cancel, NextSchedule(a));
    }
  }

  lemma {:induction false} FailStill(s: Runtime, now: nat)
    requires Sane(s.audio.player)
    ensures Still(s, FailRuntime(s, now))
  {
    hide Sane, StopAudio, Transport.Close;
    StopStill(s.audio);
  }

  lemma {:induction false} NetworkStill(s: Runtime, input: Input)
    requires Sane(s.audio.player)
    ensures Still(s, ServiceNetwork(s, input))
  {
    hide Sane, FailRuntime, Elapsed, Transport.Begin;
    FailStill(s, input.now);
    FailStill(s.(turn := ConnectingProvider, link := Transport.Begin(s.link, input.sessionValid)), input.now);
  }

  lemma {:induction false} HeardHasSpeaker(s: Runtime)
    requires AudioInv(s)
    ensures Sane(s.audio.player) && (Accepts(s.turn, ResponseDone) && s.past.heard ==> s.audio.speaker)
  {
    hide Sane, Fed;
  }

  lemma {:induction false} CompleteStill(s: Runtime, input: Input)
    requires AudioInv(s)
    ensures Still(s, CompleteTurn(s, input))
  {
    HeardHasSpeaker(s);
    hide AudioInv, Sane, StopAudio, FailRuntime, Accepts, Still;
    StopStill(s.audio);
    var r := s.(audio := StopAudio(s.audio));
    FailStill(r, input.now);
    AsideStill(s, r);
    StillThen(s, r, FailRuntime(r, input.now));
    if Accepts(s.turn, ResponseDone) {
      CompletionStill(s, CompleteTurn(s, input));
    }
  }

  lemma {:induction false} CompletionStill(s: Runtime, t: Runtime)
    requires Accepted(t) == Accepted(s) && !t.audio.speaker && (s.past.heard ==> s.audio.speaker)
    requires t.past.completions == s.past.completions
      + [Completion(s.turn, s.past.heard, s.responseDone, s.audioDone, s.past.fed, s.audio.player)]
    ensures Still(s, t)
  {
  }

  lemma {:induction false} ObserveStill(s: Runtime)
    requires Sane(s.audio.player)
    ensures Still(s, s.(audio := Observe(s.audio)))
  {
    hide Sane, Observe;
    ObserveKeeps(s.audio);
  }

  lemma {:induction false} SupervisePlayerStill(s: Runtime, input: Input)
    requires Inv(s)
    ensures Still(s, SupervisePlayer(s, input))
  {
    hide Sane, FailRuntime, CompleteTurn, Observe, Elapsed, Still, LinkInv, CompletionsInv, OrderInv, TimerInv;
    FailStill(s, input.now);
    ObserveStill(s);
    ObserveKeepsInv(s);
    var r := s.(audio := Observe(s.audio));
    CompleteStill(r, input);
    if CompleteTurn(r, input) == SupervisePlayer(s, input) {
      StillThen(s, r, CompleteTurn(r, input));
    }
  }

  lemma {:induction false} SuperviseStill(s: Runtime, input: Input)
    requires Inv(s)
    ensures Still(s, SuperviseTurn(s, input))
  {
    hide Sane, FailRuntime, SupervisePlayer, Observe, Still, LinkInv, CompletionsInv, OrderInv, TimerInv;
    FailStill(s, input.now);
    ObserveStill(s);
    ObserveKeepsInv(s);
    var r := s.(audio := Observe(s.audio));
    SupervisePlayerStill(r, input);
    StillThen(s, r, SupervisePlayer(r, input));
  }

  lemma {:induction false} StartInputStill(s: Runtime, input: Input)
    requires Sane(s.audio.player)
    ensures Still(s, StartInput(s, input))
  {
    hide Sane, FailRuntime, StopAudio, Transport.SendText, Still;
    StopStill(s.audio);
    var r := s.(audio := StartMicrophone(s.audio, input.microphoneStarts));
    var asked := r.(link := Transport.SendText(r.link, Transport.Unmute));
    FailStill(r, input.now);
    FailStill(asked, input.now);
    AsideStill(s, r);
    AsideStill(s, asked);
    AsideStill(s, StartInput(s, input));
    if StartInput(s, input) == FailRuntime(r, input.now) {
      StillThen(s, r, StartInput(s, input));
    } else if StartInput(s, input) == FailRuntime(asked, input.now) {
      StillThen(s, asked, StartInput(s, input));
    }
  }

  lemma {:induction false} AsideStill(s: Runtime, t: Runtime)
    ensures Accepted(t) == Accepted(s) && (t.audio.speaker ==> s.audio.speaker)
              && t.past.completions == s.past.completions
            ==> Still(s, t)
  {
  }

  lemma {:induction false} FinishStill(s: Runtime, input: Input)
    requires Sane(s.audio.player)
    ensures Still(s, FinishRecording(s, input))
  {
    hide Sane, FailRuntime, StopAudio, CommitInput, Elapsed, CancelRecording, Still;
    StopStill(s.audio);
    var r := s.(audio := StopAudio(s.audio));
    var failed := r.(link := CommitInput(r.link).0);
    FailStill(failed, input.now);
    CancelStill(r);
    AsideStill(s, r);
    AsideStill(s, failed);
    AsideStill(s, s);
    var t := FinishRecording(s, input);
    if t == FailRuntime(failed, input.now) {
      StillThen(s, failed, t);
    } else if t == CancelRecording(r) {
      StillThen(s, r, t);
    } else {
      AsideStill(s, t);
    }
  }

  lemma {:induction false} CancelStill(s: Runtime)
    ensures Still(s, CancelRecording(s))
  {
    hide Transport.SendText;
  }

  lemma {:induction false} StreamStill(s: Runtime, input: Input)
    requires Sane(s.audio.player) && s.captured <= SAMPLES_PER_FRAME
    ensures Still(s, StreamFrame(s, input))
  {
    hide Sane, FailRuntime, Transport.SendText, Still;
    var bytes := Min(input.readBytes, 4 * (SAMPLES_PER_FRAME - s.captured));
    FailStill(s, input.now);
    if s.captured == SAMPLES_PER_FRAME || (bytes > 0 && bytes % 4 == 0) {
      var r := s.(captured := if s.captured < SAMPLES_PER_FRAME then s.captured + bytes / 4 else s.captured);
      var sent := r.(link := Transport.SendText(r.link, Transport.Append));
      AsideStill(s, r);
      AsideStill(s, sent);
      FailStill(r, input.now);
      FailStill(sent, input.now);
      StillThen(s, r, FailRuntime(r, input.now));
      StillThen(s, sent, FailRuntime(sent, input.now));
      AsideStill(s, StreamFrame(s, input));
    }
  }

  lemma {:induction false} ButtonStill(s: Runtime, input: Input)
    requires Sane(s.audio.player)
    ensures Still(s, ServiceButton(s, input))
  {
    hide Sane, StartInput, FinishRecording, Still;
    FinishStill(s, input);
    AsideStill(s, s);
    if s.turn == Idle && s.link.status == Transport.Ready {
      var r := s.(turn := RecordingAndStreaming, responseDone := false, audioDone := false, captured := 0, frames := 0);
      StartInputStill(r, input);
      AsideStill(s, r);
      StillThen(s, r, StartInput(r, input));
    }
  }

  lemma {:induction false} RecordingStill(s: Runtime, input: Input)
    requires Failable(s)
    ensures Still(s, ServiceRecording(s, input))
  {
    hide Sane, FinishRecording, StreamFrame, Elapsed, Still;
    FinishStill(s, input);
    StreamStill(s, input);
    AsideStill(s, s);
  }

  // ---------- an audio message ----------

  /** The player's turn goes on if the speaker was on, and is a new one otherwise. */
  function Before(s: Runtime): seq<byte> {
    if s.audio.speaker then Accepted(s) else []
  }

  lemma {:induction false} BeginsEmpty(s: Runtime, input: Input)
    requires AudioInv(s)
    ensures var (r, ok) := BeginPlayback(s, input);
      ok ==> r.audio.speaker && Accepted(r) == Before(s) && r.turn == s.turn && r.past.completions == s.past.completions
  {
    hide StopAudio, ReportFailure, CallPlayer, Sane;
    StopAudioKeeps(s.audio);
    var a := StartSpeaker(s.audio, input.speakerStarts);
    if !s.audio.speaker {
      CallKeeps(a, Playback.BeginTurn);
    }
  }

  lemma {:induction false} QueuesWhole(s: Runtime, pcm: seq<byte>)
    requires Failable(s)
    ensures var (r, ok) := EnqueueAudio(s, pcm);
      && (ok ==> Accepted(r) == Accepted(s) + pcm) && r.turn == Next(s.turn, OutputAudioStarted)
      && r.audio.speaker == s.audio.speaker && r.past.completions == s.past.completions
  {
    hide CallPlayer, Sane;
    CallKeeps(s.audio, Playback.Enqueue(pcm));
  }

  /** The whole of `pcm`, and nothing else, went to the player behind what it had of this reply. */
  predicate Took(s: Runtime, t: Runtime, pcm: seq<byte>) {
    t.audio.speaker && Accepted(t) == Before(s) + pcm && t.past.completions == s.past.completions
  }

  /** An audio message is given to the player whole, or the runtime fails; one that is no samples always fails it. */
  lemma {:induction false} DeltaIsTakenWhole(s: Runtime, pcm: Option<seq<byte>>, input: Input)
    requires Inv(s) && !Offline(s.turn)
    ensures var t := WriteOutputAudio(s, pcm, input);
      && (t.turn == Error || (Samples(pcm) && Took(s, t, pcm.value) && t.turn == Next(s.turn, OutputAudioStarted)))
      && t.past.completions == s.past.completions
  {
    hide StopAudio, BeginPlayback, EnqueueAudio, ReportFailure, Sane, Transport.Close, Fed;
    hide OrderInv, CompletionsInv, LinkInv, TimerInv;
    if Playable(pcm) {
      BeginPlaybackKeeps(s, input);
      BeginsEmpty(s, input);
      var (begun, playing) := BeginPlayback(s, input);
      if playing {
        QueuesWhole(begun, pcm.value);
      }
    }
  }

  /** The player takes input, with room for `bytes` more. */
  predicate HasRoom(p: Playback.State, bytes: nat) {
    && p.x.active && !p.x.inputDone && !p.x.failed && !p.h.ioFailed && p.h.begun != Playback.Harmful
    && |p.x.buffer| + bytes <= 196608
  }

  /**
   While the speaker is on and the player has room, a message of whole samples does not fail the runtime: it is taken,
   and a waiting turn is playing.
   */
  lemma {:induction false} DeltaFits(s: Runtime, pcm: seq<byte>, input: Input)
    requires Inv(s) && !Offline(s.turn) && s.audio.speaker && Samples(Some(pcm))
    requires HasRoom(s.audio.player, |pcm|)
    requires forall i :: 0 <= i < |NextSchedule(s.audio)| ==> Records.FullSlice(NextSchedule(s.audio)[i])
    requires Records.CallerSlicesIn(NextSchedule(s.audio)) >= 10
    ensures var t := WriteOutputAudio(s, Some(pcm), input);
      Took(s, t, pcm) && t.turn == if s.turn == WaitingResponse then Playing else s.turn
  {
    hide Calls.Interleave, Playback.StartCall, Threads.Inv, FailRuntime, Fed;
    var p, schedule := s.audio.player, NextSchedule(s.audio);
    Records.EnqueueFits(p, pcm, schedule);
    var q := Calls.Interleave(Playback.StartCall(p, Playback.Enqueue(pcm)), schedule);
    assert Calls.Called(p, Playback.Enqueue(pcm), schedule) == q;
  }

  // ---------- one loop ----------

  /** The audio message this loop reads from the socket, if it reads one. */
  function DeltaRead(s: Runtime, input: Input): Option<Option<seq<byte>>> {
    if s.link.socket == Transport.Up && input.wifi && input.socket.Text? && input.socket.event.AudioDelta?
    then Some(input.socket.event.pcm) else None
  }

  lemma {:induction false} EventStill(s: Runtime, e: Transport.Event, input: Input)
    requires Inv(s) && !e.AudioDelta?
    ensures Still(s, HandleEvent(s, e, input))
  {
    hide FailRuntime, WriteOutputAudio, CompleteTurn, CallPlayer, Sane, Still, LinkInv, CompletionsInv, OrderInv;
    hide TimerInv;
    FailStill(s, input.now);
    AsideStill(s, HandleEvent(s, e, input));
    match e
    case AudioDone => CallKeeps(s.audio, Playback.FinishInput);
    case ResponseDone =>
      var r := s.(responseDone := true);
      AsideStill(s, r);
      CompleteStill(r, input);
      StillThen(s, r, CompleteTurn(r, input));
    case _ =>
  }

  /** A poll queues the message it reads and nothing else. */
  lemma {:induction false} PollQueues(l: Transport.Link, input: Transport.SocketInput)
    requires l.events == []
    ensures var t := Transport.Poll(l, input);
      && (t.events == [] || (l.socket == Transport.Up && input.Text? && t.events == [input.event]))
      && (l.socket == Transport.Up && input.Text? && input.event.AudioDelta? ==> t.events == [input.event])
  {
    match input
    case Text(e) => if l.socket == Transport.Up { TextQueues(l, e); }
    case _ =>
  }

  lemma {:induction false} TextQueues(l: Transport.Link, e: Transport.Event)
    requires l.events == [] && l.socket == Transport.Up
    ensures var t := Transport.OnText(l, e); t.events == [e] || (t.events == [] && !e.AudioDelta?)
  {
  }

  /** Reading an audio message takes it whole; reading anything else leaves the player's input alone. */
  lemma {:induction false} PollTakes(s: Runtime, input: Input)
    requires Inv(s) && Settled(s)
    ensures var t := PollProvider(s, input);
      if s.link.socket == Transport.Up && input.socket.Text? && input.socket.event.AudioDelta?
      then
        var pcm := input.socket.event.pcm;
        && (t.turn == Error || (Samples(pcm) && Took(s, t, pcm.value)))
        && t.past.completions == s.past.completions
      else Still(s, t)
  {
    hide HandleEvent, WriteOutputAudio, Transport.Poll, Transport.OnText, OrderInv, Sane, ProperCompletion, Still;
    AsideStill(s, s);
    if s.link.status != Transport.Idle {
      PollKeepsLink(s, input.socket);
      PollKeepsOrder(s, input.socket);
      PollQueues(s.link, input.socket);
      var t := s.(link := Transport.Poll(s.link, input.socket), past := NoteSession(s, input.socket));
      AsideStill(s, t);
      if t.link.events != [] {
        OneEvent(t, input);
        var popped := t.(link := t.link.(events := []));
        AsideStill(s, popped);
        PoppedKeeps(t);
        if t.link.events[0].AudioDelta? {
          DeltaEvent(s, popped, t.link.events[0].pcm, input);
        } else {
          EventStill(popped, t.link.events[0], input);
          StillThen(s, popped, HandleEvent(popped, t.link.events[0], input));
        }
      }
    }
  }

  lemma {:induction false} DeltaEvent(s: Runtime, popped: Runtime, pcm: Option<seq<byte>>, input: Input)
    requires Inv(popped) && !Offline(popped.turn) && popped.audio == s.audio
    requires popped.past.completions == s.past.completions
    ensures var t := HandleEvent(popped, Transport.AudioDelta(pcm), input);
      && (t.turn == Error || (Samples(pcm) && Took(s, t, pcm.value)))
      && t.past.completions == s.past.completions
  {
    hide WriteOutputAudio, Inv;
    DeltaIsTakenWhole(popped, pcm, input);
  }

  lemma {:induction false} OneEvent(s: Runtime, input: Input)
    requires |s.link.events| == 1
    ensures ServiceEvents(s, input) == HandleEvent(s.(link := s.link.(events := [])), s.link.events[0], input)
  {
    hide HandleEvent;
    assert s.link.events[1..] == [];
  }

  lemma {:induction false} PoppedKeeps(s: Runtime)
    requires Inv(s) && !Offline(s.turn)
    ensures Inv(s.(link := s.link.(events := [])))
  {
    var t := s.(link := s.link.(events := []));
    assert InPhase(s) ==> InPhase(t);
    hide InPhase, Sane, ProperCompletion;
  }

  /** The network service leaves a live connection as it is, or there is none. */
  lemma {:induction false} NetworkPasses(s: Runtime, input: Input)
    requires Inv(s) && Settled(s)
    ensures var t := ServiceNetwork(s, input);
      && (t.link.socket == Transport.Up ==> input.wifi && t == s)
      && (input.wifi && s.link.socket == Transport.Up ==> t == s)
  {
    hide StopAudio, Transport.SendText, AudioInv, OrderInv, CompletionsInv, TimerInv, Elapsed;
  }

  /** The runtime has failed, and no turn completed. */
  predicate Failed(s: Runtime, t: Runtime) {
    t.turn == Error && t.past.completions == s.past.completions
  }

  /** What follows the poll in serviceProvider and in the loop. */
  lemma {:induction false} RestStill(s: Runtime, r: Runtime, input: Input)
    requires Inv(s) && Settled(s) && r == PollProvider(s, input)
    ensures Still(r, ServiceProvider(s, input))
    ensures r.turn == Error ==> Failed(r, ServiceProvider(s, input))
  {
    hide PollProvider, SuperviseTurn, FailRuntime, Elapsed, Sane, Still, OrderInv, CompletionsInv, Settled;
    PollProviderKeeps(s, input);
    FailStill(r, input.now);
    SuperviseStill(r, input);
    ErrorStays(r, input);
    AsideStill(r, r.(turn := Idle));
  }

  lemma {:induction false} ErrorStays(s: Runtime, input: Input)
    requires Inv(s)
    ensures s.turn == Error ==> Failed(s, SuperviseTurn(s, input))
  {
    hide FailRuntime, CompleteTurn, Observe, Elapsed, Sane, OrderInv, CompletionsInv;
    ObserveKeeps(s.audio);
    ObserveKeeps(Observe(s.audio));
  }

  /** The player has `bytes` of this reply, and what completed meanwhile completed with them. */
  predicate Carried(s: Runtime, t: Runtime, bytes: seq<byte>) {
    && Accepted(t) == bytes
    && |s.past.completions| <= |t.past.completions|
    && (forall i :: 0 <= i < |s.past.completions| ==> t.past.completions[i] == s.past.completions[i])
    && (forall i :: |s.past.completions| <= i < |t.past.completions| ==>
          CompletedWith(t.past.completions[i], bytes, true))
  }

  lemma {:induction false} TookCarries(s: Runtime, r: Runtime, t: Runtime, pcm: seq<byte>)
    requires Took(s, r, pcm) && Still(r, t)
    ensures Carried(s, t, Before(s) + pcm)
  {
  }

  /** The button and the recording after serviceProvider. */
  lemma {:induction false} EndOfLoop(r: Runtime, input: Input)
    requires Inv(r) && Settled(r)
    ensures var t := ServiceRecording(ServiceButton(r, input), input);
      Still(r, t) && (r.turn == Error ==> t == r)
  {
    hide Still, StreamFrame, FinishRecording, StartInput, OrderInv, CompletionsInv, LinkInv, Sane, TimerInv, Settled;
    var u := ServiceButton(r, input);
    ButtonStill(r, input);
    ButtonKeeps(r, input);
    RecordingStill(u, input);
    StillThen(r, u, ServiceRecording(u, input));
  }

  /** The rest of a loop, from the state the network service leaves. */
  function AfterNetwork(s: Runtime, input: Input): Runtime {
    ServiceRecording(ServiceButton(ServiceProvider(s, input), input), input)
  }

  lemma {:induction false} AfterNetworkTakes(s: Runtime, input: Input)
    requires Inv(s) && Settled(s)
    ensures var t := AfterNetwork(s, input);
      if s.link.socket == Transport.Up && input.socket.Text? && input.socket.event.AudioDelta?
      then
        var pcm := input.socket.event.pcm;
        Failed(s, t) || (Samples(pcm) && Carried(s, t, Before(s) + pcm.value))
      else Still(s, t)
  {
    hide ServiceProvider, ServiceButton, ServiceRecording, PollProvider, Inv, Settled, Still, Carried, Took;
    PollTakes(s, input);
    var r := PollProvider(s, input);
    RestStill(s, r, input);
    ProviderKeeps(s, input);
    var u := ServiceProvider(s, input);
    EndOfLoop(u, input);
    var t := AfterNetwork(s, input);
    StillThen(r, u, t);
    if s.link.socket == Transport.Up && input.socket.Text? && input.socket.event.AudioDelta? {
      if r.turn != Error {
        TookCarries(s, r, t, input.socket.event.pcm.value);
      }
    } else {
      StillThen(s, r, t);
    }
  }

  /** One loop: an audio message it reads reaches the player whole or the loop fails; otherwise nothing does. */
  lemma {:induction false} LoopTakes(s: Runtime, input: Input)
    requires Inv(s) && Settled(s)
    ensures var t := Loop(s, input);
      match DeltaRead(s, input)
      case None => Still(s, t)
      case Some(pcm) => Failed(s, t) || (Samples(pcm) && Carried(s, t, Before(s) + pcm.value))
  {
    hide Environment, ServiceNetwork, AfterNetwork, Inv, Settled, Still, Carried;
    EnvironmentKeeps(s, 0, input);
    var s1 := Environment(s, input);
    EnvironmentPasses(s, input);
    InvSane(s1);
    NetworkStill(s1, input);
    NetworkPasses(s1, input);
    NetworkKeeps(s1, input);
    var s2 := ServiceNetwork(s1, input);
    AfterNetworkTakes(s2, input);
    LoopParts(s, input);
    if DeltaRead(s, input).None? {
      StillThen(s, s1, s2);
      StillThen(s, s2, Loop(s, input));
    } else if !Failed(s, Loop(s, input)) {
      SameCarried(s, s2, Loop(s, input), DeltaRead(s, input).value.value);
    }
  }

  lemma {:induction false} LoopParts(s: Runtime, input: Input)
    ensures Loop(s, input) == AfterNetwork(ServiceNetwork(Environment(s, input), input), input)
  {
    hide Environment, ServiceNetwork, ServiceProvider, ServiceButton, ServiceRecording;
  }

  lemma {:induction false} SameCarried(s: Runtime, u: Runtime, t: Runtime, pcm: seq<byte>)
    requires u.audio.speaker == s.audio.speaker && Accepted(u) == Accepted(s)
    requires u.past.completions == s.past.completions && Carried(u, t, Before(u) + pcm)
    ensures Carried(s, t, Before(s) + pcm)
  {
  }

  lemma {:induction false} InvSane(s: Runtime)
    requires Inv(s)
    ensures Sane(s.audio.player)
  {
  }

  lemma {:induction false} EnvironmentPasses(s: Runtime, input: Input)
    ensures var t := Environment(s, input);
      && Still(s, t) && t.link.socket == s.link.socket && t.past == s.past
      && t.audio.speaker == s.audio.speaker && Accepted(t) == Accepted(s)
  {
  }

  // ---------- runs ----------

  /** The octets of the audio messages read by these loops since the speaker was last started. */
  function ReplyRead(boot: nat, inputs: seq<Input>): seq<byte> {
    if inputs == [] then [] else
      var earlier := inputs[..|inputs| - 1];
      match DeltaRead(Run(boot, earlier), inputs[|inputs| - 1])
      case None => ReplyRead(boot, earlier)
      case Some(pcm) =>
        (if Run(boot, earlier).audio.speaker then ReplyRead(boot, earlier) else [])
        + if pcm.Some? then pcm.value else []
  }

  /** While the speaker is on, the player has accepted exactly the audio the loops have read of this reply. */
  lemma {:induction false} PlayerHasWhatWasRead(boot: nat, inputs: seq<Input>)
    ensures var s := Run(boot, inputs); s.audio.speaker ==> Accepted(s) == ReplyRead(boot, inputs)
  {
    if inputs != [] {
      hide Loop, Inv, Settled, DeltaRead, Samples;
      var earlier, input := inputs[..|inputs| - 1], inputs[|inputs| - 1];
      PlayerHasWhatWasRead(boot, earlier);
      RunKeeps(boot, earlier);
      RunKeeps(boot, inputs);
      FailedIsSilent(Run(boot, inputs));
      LoopTakes(Run(boot, earlier), input);
      SamplesAre(DeltaRead(Run(boot, earlier), input));
    }
  }

  lemma {:induction false} SamplesAre(read: Option<Option<seq<byte>>>)
    ensures read.Some? && Samples(read.value) ==> read.value.Some?
  {
  }

  lemma {:induction false} FailedIsSilent(s: Runtime)
    requires Inv(s)
    ensures s.turn == Error ==> !s.audio.speaker
  {
  }

  /** The bytes are what some number of these loops had read of a reply. */
  ghost predicate ReadIn(boot: nat, inputs: seq<Input>, bytes: seq<byte>) {
    exists k :: 0 <= k <= |inputs| && ReplyRead(boot, inputs[..k]) == bytes
  }

  lemma {:induction false} ReadInMore(boot: nat, inputs: seq<Input>, bytes: seq<byte>)
    requires inputs != [] && ReadIn(boot, inputs[..|inputs| - 1], bytes)
    ensures ReadIn(boot, inputs, bytes)
  {
    hide ReplyRead;
    var earlier := inputs[..|inputs| - 1];
    var k :| 0 <= k <= |earlier| && ReplyRead(boot, earlier[..k]) == bytes;
    assert earlier[..k] == inputs[..k];
  }

  lemma {:induction false} ReadInAll(boot: nat, inputs: seq<Input>)
    ensures ReadIn(boot, inputs, ReplyRead(boot, inputs))
  {
    hide ReplyRead;
    assert inputs[..|inputs|] == inputs;
  }

  /** Every completed turn that was heard gave the player exactly the audio read of its reply. */
  lemma {:induction false} CompletionsHaveWhatWasRead(boot: nat, inputs: seq<Input>)
    ensures var done := Run(boot, inputs).past.completions;
      forall i :: 0 <= i < |done| && done[i].heard ==> ReadIn(boot, inputs, done[i].player.h.accepted)
  {
    if inputs != [] {
      hide Loop, Inv, Settled, DeltaRead, Samples, ReadIn;
      var earlier, input := inputs[..|inputs| - 1], inputs[|inputs| - 1];
      CompletionsHaveWhatWasRead(boot, earlier);
      PlayerHasWhatWasRead(boot, earlier);
      RunKeeps(boot, earlier);
      LoopTakes(Run(boot, earlier), input);
      SamplesAre(DeltaRead(Run(boot, earlier), input));
      ReadInAll(boot, inputs);
      forall i | 0 <= i < |Run(boot, inputs).past.completions| && Run(boot, inputs).past.completions[i].heard
        ensures ReadIn(boot, inputs, Run(boot, inputs).past.completions[i].player.h.accepted)
      {
        OneCompletion(boot, inputs, Run(boot, earlier), Run(boot, inputs), i);
      }
    }
  }

  /** A completion is an earlier one, or completed with what had been read by then. */
  lemma {:induction false} OneCompletion(boot: nat, inputs: seq<Input>, s: Runtime, t: Runtime, i: nat)
    requires inputs != [] && s == Run(boot, inputs[..|inputs| - 1]) && i < |t.past.completions|
    requires t.past.completions[i].heard && ReadIn(boot, inputs, ReplyRead(boot, inputs))
    requires s.audio.speaker ==> Accepted(s) == ReplyRead(boot, inputs[..|inputs| - 1])
    requires forall j :: 0 <= j < |s.past.completions| && s.past.completions[j].heard ==>
      ReadIn(boot, inputs[..|inputs| - 1], s.past.completions[j].player.h.accepted)
    requires var read := DeltaRead(s, inputs[|inputs| - 1]);
      match read
      case None => Still(s, t)
      case Some(pcm) => Failed(s, t) || (pcm.Some? && Carried(s, t, Before(s) + pcm.value))
    ensures ReadIn(boot, inputs, t.past.completions[i].player.h.accepted)
  {
    hide Run, DeltaRead, ReadIn;
    if i < |s.past.completions| {
      assert t.past.completions[i] == s.past.completions[i];
      ReadInMore(boot, inputs, t.past.completions[i].player.h.accepted);
    }
  }
}
