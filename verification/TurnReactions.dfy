/** What one loop of the runtime does about each thing that can happen, from any state a run can reach. */
module TurnReactions {
  import opened Common
  import opened VoiceTurn
  import opened TurnRuntime
  import opened TurnInvariant
  import opened TurnAudio
  import Transport = RealtimeTransport
  import Playback = PlaybackMachine
  import Threads = PlaybackInvariant
  import Calls = PlaybackCalls

  // ---------- failures ----------

  /** Once the runtime has failed, the rest of the loop leaves it so. */
  lemma {:induction false} ErrorEnds(s: Runtime, input: Input)
    requires Inv(s) && Settled(s) && s.turn == Error
    ensures AfterNetwork(s, input).turn == Error
  {
    hide SuperviseTurn, ServiceButton, ServiceRecording, AudioInv, OrderInv, CompletionsInv, TimerInv;
    ErrorStays(s, input);
    ProviderKeeps(s, input);
    EndOfLoop(ServiceProvider(s, input), input);
  }

  lemma {:induction false} ErrorAfterPoll(s: Runtime, input: Input)
    requires Inv(s) && Settled(s) && PollProvider(s, input).turn == Error
    ensures AfterNetwork(s, input).turn == Error
  {
    hide PollProvider, ServiceProvider, ServiceButton, ServiceRecording, Inv, Settled;
    RestStill(s, PollProvider(s, input), input);
    ProviderKeeps(s, input);
    EndOfLoop(ServiceProvider(s, input), input);
  }

  lemma {:induction false} ErrorAfterProvider(s: Runtime, input: Input)
    requires Inv(s) && Settled(s) && ServiceProvider(s, input).turn == Error
    ensures AfterNetwork(s, input).turn == Error
  {
    hide ServiceProvider, ServiceButton, ServiceRecording, Inv, Settled;
    ProviderKeeps(s, input);
    EndOfLoop(ServiceProvider(s, input), input);
  }

  lemma {:induction false} LoopFrom(s: Runtime, input: Input) returns (u: Runtime, t: Runtime)
    requires Inv(s) && Settled(s)
    ensures u == Environment(s, input) && Inv(u) && Settled(u) && t == ServiceNetwork(u, input) && Inv(t) && Settled(t)
    ensures Loop(s, input) == AfterNetwork(t, input)
    ensures u.turn == s.turn && u.timers == s.timers && u.audio == s.audio.(schedules := u.audio.schedules)
    ensures u.link == s.link.(outcomes := u.link.outcomes) && u.past == s.past
    ensures u.responseDone == s.responseDone && u.audioDone == s.audioDone && u.frames == s.frames
  {
    hide ServiceNetwork, Inv, Settled;
    EnvironmentKeeps(s, 0, input);
    u := Environment(s, input);
    NetworkKeeps(u, input);
    t := ServiceNetwork(u, input);
    LoopParts(s, input);
  }

  /** Without Wi-Fi every session, and every attempt at one, fails. */
  lemma {:induction false} WifiLost(s: Runtime, input: Input)
    requires Inv(s) && Settled(s) && !input.wifi && s.turn != ConnectingWifi && s.turn != Error
    ensures Loop(s, input).turn == Error
  {
    hide Loop, AfterNetwork, Environment, StopAudio, Transport.Close, AudioInv, OrderInv, CompletionsInv, TimerInv;
    var u, t := LoopFrom(s, input);
    ErrorEnds(t, input);
  }

  /** The server reports an error, a failed response, or sends what is no event. */
  lemma {:induction false} ServerFails(s: Runtime, input: Input)
    requires Inv(s) && Settled(s) && input.wifi && s.link.socket == Transport.Up
    requires input.socket in {Transport.Text(Transport.ErrorReported), Transport.Text(Transport.ResponseFailed),
                              Transport.Text(Transport.Malformed)}
    ensures Loop(s, input).turn == Error
  {
    hide Loop, AfterNetwork, ServiceNetwork, Environment;
    var u, t := LoopFrom(s, input);
    NetworkPasses(u, input);
    FailureRead(u, input);
    ErrorAfterPoll(u, input);
  }

  lemma {:induction false} FailureRead(s: Runtime, input: Input)
    requires Inv(s) && Settled(s) && s.link.socket == Transport.Up
    requires input.socket in {Transport.Text(Transport.ErrorReported), Transport.Text(Transport.ResponseFailed),
                              Transport.Text(Transport.Malformed)}
    ensures PollProvider(s, input).turn == Error
  {
    hide StopAudio, Transport.Close, OrderInv, CompletionsInv, TimerInv, AudioInv, ServiceEvents, HandleEvent;
    PollKeepsLink(s, input.socket);
    var t := s.(link := Transport.Poll(s.link, input.socket), past := NoteSession(s, input.socket));
    assert t.link.events == [input.socket.event];
    OneEvent(t, input);
    FailureHandled(t.(link := t.link.(events := [])), input.socket.event, input);
  }

  lemma {:induction false} FailureHandled(s: Runtime, e: Transport.Event, input: Input)
    requires e in {Transport.ErrorReported, Transport.ResponseFailed, Transport.Malformed} && s.turn != Unconfigured
    ensures HandleEvent(s, e, input).turn == Error
  {
    hide StopAudio, Transport.Close;
  }

  lemma {:induction false} NetworkIdle(s: Runtime, input: Input)
    requires LinkInv(s) && input.wifi && s.link.socket != Transport.Down
    ensures ServiceNetwork(s, input) == s
  {
    hide FailRuntime, Elapsed;
  }

  /** The connection is dropped, or reports an error. */
  predicate Loses(l: Transport.Link, input: Transport.SocketInput) {
    (input.Dropped? && l.socket != Transport.Down) || (input == Transport.SocketError && l.socket == Transport.Up)
  }

  lemma {:induction false} ConnectionLost(s: Runtime, input: Input)
    requires Inv(s) && Settled(s) && input.wifi && Loses(s.link, input.socket)
    ensures Loop(s, input).turn == Error
  {
    hide Loop, AfterNetwork, ServiceNetwork, Environment;
    var u, t := LoopFrom(s, input);
    NetworkIdle(u, input);
    LossHandled(u, input);
    ErrorAfterProvider(u, input);
  }

  lemma {:induction false} LossHandled(s: Runtime, input: Input)
    requires Inv(s) && Settled(s) && Loses(s.link, input.socket)
    ensures ServiceProvider(s, input).turn == Error
  {
    hide StopAudio, Transport.Close, Observe, CompleteTurn, Elapsed, OrderInv, CompletionsInv, TimerInv, AudioInv;
  }

  // ---------- without a session ----------

  /** Where a loop leads a runtime without a session. */
  function NextOffline(s: Runtime, input: Input): TurnState {
    match s.turn
    case ConnectingWifi =>
      if input.wifi then SyncingClock else if Elapsed(input.now, s.timers.wifi) >= 15000 then Error else ConnectingWifi
    case SyncingClock =>
      if !input.wifi then Error
      else if input.clock then (if input.sessionValid then ConnectingProvider else Error)
      else if Elapsed(input.now, s.timers.clock) >= 20000 then Error else SyncingClock
    case _ => if Elapsed(input.now, s.timers.error) >= 5000 then ConnectingWifi else Error
  }

  /** Wi-Fi, then the clock, then the provider; after an error Wi-Fi again, five seconds later. */
  lemma {:induction false} OfflineLoop(s: Runtime, input: Input)
    requires Inv(s) && Settled(s) && Offline(s.turn)
    ensures Loop(s, input).turn == NextOffline(s, input)
  {
    hide Loop, AfterNetwork, Environment, StopAudio, Transport.Close, AudioInv, OrderInv, CompletionsInv, TimerInv;
    var u, t := LoopFrom(s, input);
    if t.turn == ConnectingProvider {
      BegunHere(u, input);
      FreshProvider(t, input);
    } else {
      OfflineStays(t, input);
    }
  }

  lemma {:induction false} OfflineStays(s: Runtime, input: Input)
    requires Inv(s) && Settled(s) && Offline(s.turn)
    ensures AfterNetwork(s, input).turn == s.turn
  {
    hide FailRuntime, CompleteTurn, Observe, Elapsed, StartInput, FinishRecording, StreamFrame, Sane;
    ObserveKeeps(s.audio);
    ObserveKeeps(Observe(s.audio));
    hide OrderInv, CompletionsInv, TimerInv;
  }

  lemma {:induction false} BegunHere(s: Runtime, input: Input)
    requires Inv(s) && s.turn == SyncingClock && input.wifi && input.clock && input.sessionValid
    ensures var t := ServiceNetwork(s, input);
      && t.link.status == Transport.Connecting && t.link.socket == Transport.Down
      && t.timers.provider == U32(input.now) && !t.audio.speaker
  {
    hide Transport.Close, OrderInv, CompletionsInv, TimerInv, Sane;
    CloseIsIdle(s.link);
  }

  /** A session that has just been begun. */
  lemma {:induction false} FreshProvider(s: Runtime, input: Input)
    requires Inv(s) && Settled(s) && s.turn == ConnectingProvider && s.link.status == Transport.Connecting
    requires s.link.socket == Transport.Down && s.timers.provider == U32(input.now) && !s.audio.speaker
    ensures AfterNetwork(s, input).turn == ConnectingProvider
  {
    hide FailRuntime, CompleteTurn, Observe, StartInput, FinishRecording, StreamFrame, Sane;
    ElapsedExact(input.now, input.now);
    ObserveKeeps(s.audio);
    ObserveKeeps(Observe(s.audio));
    hide OrderInv, CompletionsInv, TimerInv;
  }

  // ---------- opening a session ----------

  lemma {:induction false} OpenedPoll(s: Runtime, input: Input)
    requires Settled(s) && s.link.socket == Transport.Handshake && input.socket == Transport.Opened
    ensures var r := PollProvider(s, input);
      && r == s.(link := r.link, past := r.past) && s.turn == ConnectingProvider
      && (if s.link.outcomes != [] && s.link.outcomes[0] == Transport.Sent
          then r.link.status == Transport.AwaitingSession && r.link.sent == [Transport.SessionCreate]
          else r.link.status == Transport.Disconnected)
  {
  }

  lemma {:induction false} LostFails(s: Runtime, input: Input)
    requires s.link.status == Transport.Disconnected && s.turn == ConnectingProvider
    ensures SuperviseTurn(s, input).turn == Error
  {
    hide StopAudio, Transport.Close, Observe, CompleteTurn;
  }

  /** A connection that opens is asked for a session at once, or has failed. */
  lemma {:induction false} ConnectionOpens(s: Runtime, input: Input)
    requires Inv(s) && Settled(s) && s.link.socket == Transport.Handshake && input.socket == Transport.Opened
    requires !s.audio.speaker && Elapsed(input.now, s.timers.provider) < 20000
    ensures var t := ServiceProvider(s, input);
      if s.link.outcomes != [] && s.link.outcomes[0] == Transport.Sent
      then t.turn == ConnectingProvider && t.link.status == Transport.AwaitingSession
        && t.link.sent == [Transport.SessionCreate]
      else t.turn == Error
  {
    hide PollProvider, SuperviseTurn, Elapsed, FailRuntime;
    InvSane(s);
    OpenedPoll(s, input);
    var r := PollProvider(s, input);
    hide Inv, Settled;
    if r.link.status == Transport.Disconnected {
      LostFails(r, input);
    } else {
      QuietSession(r, input);
      SessionKept(r, input);
    }
  }

  lemma {:induction false} SessionKept(s: Runtime, input: Input)
    requires s.turn == ConnectingProvider
    ensures var t := SuperviseTurn(s, input); t.turn != Error ==> t.link == s.link
  {
    hide StopAudio, Transport.Close, Observe, Elapsed;
  }

  /** A session that is announced is muted at once and the device idle, or the runtime fails. */
  lemma {:induction false} SessionOpens(s: Runtime, input: Input)
    requires Inv(s) && Settled(s) && s.link.status == Transport.AwaitingSession
    requires input.socket == Transport.Text(Transport.SessionCreated)
    ensures var t := ServiceProvider(s, input);
      if Transport.Outcome(s.link) == Transport.Sent
      then t.turn == Idle && t.link.status == Transport.Ready && t.link.sent == s.link.sent + [Transport.Mute]
      else t.turn == Error
  {
    hide StopAudio, Transport.Close, Observe, Elapsed, OrderInv, CompletionsInv, TimerInv, AudioInv, CompleteTurn;
    var t := s.(link := Transport.Poll(s.link, input.socket), past := NoteSession(s, input.socket));
    if t.link.events != [] {
      OneEvent(t, input);
      SessionNoted(t.(link := t.link.(events := [])), input);
    }
  }

  // ---------- what the server says of a reply ----------

  /** The first word of a reply starts it, and the last ones are noted; a reply without sound is over with them. */
  lemma {:induction false} ReplyEvents(s: Runtime, e: Transport.Event, input: Input)
    requires Inv(s) && (s.turn == WaitingResponse || s.turn == Playing)
    ensures var t := HandleEvent(s, e, input);
      && (e == Transport.AudioStarted ==> t.turn == Playing)
      && (e == Transport.AudioDone ==>
            t.audioDone && t.turn == s.turn && (t.audio.player.x.inputDone || !t.audio.player.x.active))
      && (e == Transport.ResponseDone && s.audio.speaker ==> t.responseDone && t.turn == s.turn)
      && (e == Transport.ResponseDone && !s.audio.speaker ==>
            t.turn == Idle && |t.past.completions| == |s.past.completions| + 1)
  {
    hide StopAudio, CallPlayer, WriteOutputAudio, FailRuntime, LinkInv, OrderInv, CompletionsInv, TimerInv, Sane;
    match e
    case AudioDone => CallKeeps(s.audio, Playback.FinishInput);
    case _ =>
  }

  // ---------- the player ----------

  /** A player that fails while it plays a reply fails the runtime in the same loop. */
  lemma {:induction false} PlayerFails(s: Runtime, input: Input)
    requires Inv(s) && Settled(s) && s.turn == Playing && s.audio.speaker && s.audio.player.x.failed
    ensures Loop(s, input).turn == Error
  {
    hide Loop, AfterNetwork, ServiceNetwork, Environment, Inv, Settled;
    var u, t := LoopFrom(s, input);
    if input.wifi {
      PlayingOnline(u, input);
      FailedPlayerRead(u, input);
      if PollProvider(u, input).turn == Error {
        ErrorAfterPoll(u, input);
      } else {
        FailedPlayerHandled(u, PollProvider(u, input), input);
        ErrorAfterProvider(u, input);
      }
    } else {
      WifiLost(s, input);
    }
  }

  lemma {:induction false} PlayingOnline(s: Runtime, input: Input)
    requires Inv(s) && s.turn == Playing && input.wifi
    ensures ServiceNetwork(s, input) == s
  {
    hide FailRuntime, Elapsed;
  }

  /** Still playing with a failed player. */
  predicate Failing(s: Runtime) {
    s.turn == Playing && s.audio.speaker && s.audio.player.x.failed
  }

  lemma {:induction false} FailedPlayerRead(s: Runtime, input: Input)
    requires Inv(s) && Settled(s) && Failing(s)
    ensures var t := PollProvider(s, input); t.turn == Error || Failing(t)
  {
    hide HandleEvent, Transport.Poll, Transport.OnText, OrderInv, Sane, ProperCompletion;
    PollKeepsLink(s, input.socket);
    PollKeepsOrder(s, input.socket);
    var t := s.(link := Transport.Poll(s.link, input.socket), past := NoteSession(s, input.socket));
    if t.link.events != [] {
      OneEvent(t, input);
      FailedPlayerEvent(t.(link := t.link.(events := [])), t.link.events[0], input);
    }
  }

  lemma {:induction false} FailedPlayerEvent(s: Runtime, e: Transport.Event, input: Input)
    requires Failable(s) && Failing(s)
    ensures var t := HandleEvent(s, e, input); t.turn == Error || Failing(t)
  {
    hide StopAudio, Transport.Close, Sane, CallPlayer, ReportFailure;
    match e
    case AudioDelta(pcm) =>
      if Playable(pcm) {
        CallKeeps(s.audio, Playback.Enqueue(pcm.value));
      }
    case AudioDone =>
      CallKeeps(s.audio, Playback.FinishInput);
    case _ =>
  }

  lemma {:induction false} ObservedFails(a: Audio)
    requires Sane(a.player)
    ensures a.player.x.failed ==> Observe(a).player.x.failed
  {
    hide Threads.Inv;
    StaysFailed(a.player, NextSchedule(a));
  }

  lemma {:induction false} StaysFailed(p: Playback.State, schedule: seq<Calls.Slice>)
    requires p.c.pc == Playback.Ready
    ensures p.x.failed ==> Calls.Interleave(p, schedule).x.failed
    decreases |schedule|
  {
    hide Playback.TaskStep;
    if schedule != [] {
      match schedule[0]
      case TaskSlice(io) =>
        Threads.TaskStepFrame(p, io);
        Calls.TaskKeepsFailed(p, io);
        StaysFailed(Playback.TaskStep(p, io), schedule[1..]);
      case CallerSlice(io) => StaysFailed(p, schedule[1..]);
    }
  }

  lemma {:induction false} FailedPlayerHandled(s: Runtime, r: Runtime, input: Input)
    requires Inv(s) && Settled(s) && r == PollProvider(s, input) && Failing(r)
    ensures ServiceProvider(s, input).turn == Error
  {
    hide PollProvider, FailRuntime, SuperviseTurn, Elapsed, Inv, Settled;
    PollProviderKeeps(s, input);
    SupervisesFailure(r, input);
  }

  lemma {:induction false} SupervisesFailure(r: Runtime, input: Input)
    requires Inv(r) && Failing(r)
    ensures SuperviseTurn(r, input).turn == Error
  {
    hide StopAudio, Transport.Close, Observe, CompleteTurn, Elapsed, LinkInv, OrderInv, CompletionsInv, TimerInv;
    ObserveKeeps(r.audio);
    ObservedFails(r.audio);
  }

  // ---------- completion ----------

  lemma {:induction false} ProviderFinishes(s: Runtime, input: Input)
    requires Inv(s) && s.link.events == [] && (s.turn == ConnectingProvider ==> s.link.status != Transport.Ready)
    ensures !Finished(SuperviseTurn(s, input))
  {
    hide Transport.Close, Observe, Elapsed, LinkInv, OrderInv, CompletionsInv, TimerInv, Sane;
    ObserveKeeps(s.audio);
    ObserveKeeps(Observe(s.audio));
    FailSilent(s, input.now);
  }

  lemma {:induction false} FailSilent(s: Runtime, now: nat)
    ensures !FailRuntime(s, now).audio.speaker && !StopAudio(s.audio).speaker
  {
  }

  /** A session that becomes ready brings no other event with it. */
  lemma {:induction false} OnlyTheSession(s: Runtime, input: Input)
    requires Inv(s) && Settled(s)
    ensures var r := PollProvider(s, input);
      r.turn == ConnectingProvider && r.link.status == Transport.Ready && Finished(r) ==> Finished(s)
  {
    hide HandleEvent, Transport.Poll, Transport.OnText, OrderInv, Sane, ProperCompletion;
    if s.link.status != Transport.Idle {
      PollKeepsLink(s, input.socket);
      PollQueues(s.link, input.socket);
      var t := s.(link := Transport.Poll(s.link, input.socket), past := NoteSession(s, input.socket));
      if t.link.events != [] {
        OneEvent(t, input);
        var e, popped := t.link.events[0], t.(link := t.link.(events := []));
        if e == Transport.SessionCreated {
          SessionNoted(popped, input);
        } else {
          ReadyBefore(s.link, input.socket);
          EventNotReady(popped, e, input);
          EventBeginsNone(popped, e, input);
        }
      }
    }
  }

  lemma {:induction false} SessionNoted(s: Runtime, input: Input)
    ensures HandleEvent(s, Transport.SessionCreated, input) == s
  {
  }

  lemma {:induction false} ReadyBefore(l: Transport.Link, input: Transport.SocketInput)
    requires input != Transport.Text(Transport.SessionCreated) && l.events == []
    ensures Transport.Poll(l, input).status == Transport.Ready ==> l.status == Transport.Ready
  {
    match input
    case Text(e) =>
    case _ =>
  }

  lemma {:induction false} EventBeginsNone(s: Runtime, e: Transport.Event, input: Input)
    requires Failable(s)
    ensures HandleEvent(s, e, input).turn == ConnectingProvider ==> s.turn == ConnectingProvider
  {
    hide StopAudio, CallPlayer, ReportFailure, StartSpeaker, Sane, Transport.Close;
  }

  lemma {:induction false} WriteNotReady(s: Runtime, pcm: Option<seq<byte>>, input: Input)
    requires Failable(s)
    ensures WriteOutputAudio(s, pcm, input).link.status == Transport.Ready ==> s.link.status == Transport.Ready
  {
    hide StopAudio, CallPlayer, ReportFailure, StartSpeaker, Sane, Next, Transport.Close;
    FailOffline(s.link);
  }

  /** Handling an event makes no session ready. */
  lemma {:induction false} EventNotReady(s: Runtime, e: Transport.Event, input: Input)
    requires Failable(s)
    ensures HandleEvent(s, e, input).link.status == Transport.Ready ==> s.link.status == Transport.Ready
  {
    hide StopAudio, CallPlayer, WriteOutputAudio, Sane, Next, Transport.Close;
    FailOffline(s.link);
    match e
    case AudioDelta(pcm) => WriteNotReady(s, pcm, input);
    case _ =>
  }

  lemma {:induction false} FailOffline(l: Transport.Link)
    ensures Transport.Close(l).status == Transport.Idle
  {
  }

  lemma {:induction false} AfterNetworkFinishes(s: Runtime, input: Input)
    requires Inv(s) && Settled(s) && !Finished(s)
    ensures !Finished(AfterNetwork(s, input))
  {
    hide PollProvider, SuperviseTurn, FailRuntime, Elapsed, StartInput, FinishRecording, StreamFrame, Inv, Settled;
    PollProviderKeeps(s, input);
    OnlyTheSession(s, input);
    var r := PollProvider(s, input);
    FailSilent(r, input.now);
    if !(r.turn == ConnectingProvider && r.link.status == Transport.Ready) {
      ProviderFinishes(r, input);
    }
    var t := ServiceProvider(s, input);
    ProviderKeeps(s, input);
    ButtonFinishes(t, input);
    ButtonKeeps(t, input);
    RecordingFinishes(ServiceButton(t, input), input);
  }

  lemma {:induction false} StoppedSilent()
    ensures forall a :: !StopAudio(a).speaker
  {
  }

  lemma {:induction false} ButtonFinishes(s: Runtime, input: Input)
    requires !Finished(s)
    ensures !Finished(ServiceButton(s, input))
  {
    hide StopAudio, Transport.Close, Transport.SendText, CommitInput, Elapsed;
    StoppedSilent();
  }

  lemma {:induction false} RecordingFinishes(s: Runtime, input: Input)
    requires Inv(s) && !Finished(s)
    ensures !Finished(ServiceRecording(s, input))
  {
    hide StopAudio, Transport.Close, Transport.SendText, CommitInput, Elapsed;
    CapturedBounded(s);
    hide Inv;
    StoppedSilent();
  }

  lemma {:induction false} CapturedBounded(s: Runtime)
    requires Inv(s)
    ensures s.captured <= SAMPLES_PER_FRAME
  {
  }

  /** No reply that the server has finished and the player has drained outlives a loop: it completes or has failed. */
  lemma {:induction false} NothingFinishedWaits(boot: nat, inputs: seq<Input>)
    ensures !Finished(Run(boot, inputs))
  {
    if inputs != [] {
      hide Loop, Inv, Settled, Finished;
      var earlier, input := inputs[..|inputs| - 1], inputs[|inputs| - 1];
      NothingFinishedWaits(boot, earlier);
      RunKeeps(boot, earlier);
      LoopFinishes(Run(boot, earlier), input);
    }
  }

  lemma {:induction false} LoopFinishes(s: Runtime, input: Input)
    requires Inv(s) && Settled(s) && !Finished(s)
    ensures !Finished(Loop(s, input))
  {
    hide Loop, AfterNetwork, Environment, Inv, Settled;
    var u, t := LoopFrom(s, input);
    NetworkFinishes(u, input);
    AfterNetworkFinishes(t, input);
  }

  lemma {:induction false} NetworkFinishes(s: Runtime, input: Input)
    requires !Finished(s)
    ensures !Finished(ServiceNetwork(s, input))
  {
    hide StopAudio, Transport.Close, Elapsed;
    FailSilent(s, input.now);
  }

  // ---------- patience ----------

  lemma {:induction false} QuietPoll(s: Runtime, input: Input)
    requires Settled(s) && input.socket == Transport.Quiet
    ensures PollProvider(s, input) == s
  {
  }

  lemma {:induction false} QuietSession(s: Runtime, input: Input)
    requires s.turn == ConnectingProvider && !s.audio.speaker && Sane(s.audio.player)
    requires s.link.status == Transport.Connecting || s.link.status == Transport.AwaitingSession
    ensures SuperviseTurn(s, input).turn == ConnectingProvider
  {
    hide FailRuntime, CompleteTurn, Observe, Elapsed, Sane;
    ObserveKeeps(s.audio);
    ObserveKeeps(Observe(s.audio));
  }

  lemma {:induction false} QuietReply(s: Runtime, input: Input)
    requires Settled(s) && (s.turn == WaitingResponse || s.turn == Playing) && Sane(s.audio.player)
    requires s.link.status != Transport.Disconnected
    ensures var t, waited := SuperviseTurn(s, input), Elapsed(input.now, s.timers.response);
      && (waited >= 45000 ==> t.turn == Error)
      && (waited < 45000 && !Observe(s.audio).player.x.failed ==>
            t.turn == s.turn || (t.turn == Idle && s.audio.speaker && s.responseDone && s.audioDone))
  {
    hide StopAudio, Transport.Close, Observe, Elapsed, Sane;
    ObserveKeeps(s.audio);
    ObserveKeeps(Observe(s.audio));
    FailsToError(s, input.now);
    FailsToError(s.(audio := Observe(s.audio)), input.now);
    CompletesToIdle(s.(audio := Observe(Observe(s.audio))), input);
    hide FailRuntime, CompleteTurn;
  }

  lemma {:induction false} FailsToError(s: Runtime, now: nat)
    ensures s.turn != Unconfigured ==> FailRuntime(s, now).turn == Error
  {
  }

  lemma {:induction false} CompletesToIdle(s: Runtime, input: Input)
    ensures s.turn == WaitingResponse || s.turn == Playing ==> CompleteTurn(s, input).turn == Idle
  {
    hide FailRuntime, StopAudio;
  }

  /**
   While the server is quiet a session is waited for until 20 seconds have passed and a reply until 45 have, and no
   shorter: a reply that has not failed is over before only when the server has finished it.
   */
  lemma {:induction false} Patience(s: Runtime, input: Input)
    requires Inv(s) && Settled(s) && input.socket == Transport.Quiet && s.link.status != Transport.Disconnected
    ensures var t, waited := ServiceProvider(s, input), Elapsed(input.now, s.timers.response);
      && (s.turn == ConnectingProvider && !s.audio.speaker ==>
            t.turn == if Elapsed(input.now, s.timers.provider) >= 20000 then Error else ConnectingProvider)
      && (s.turn == WaitingResponse || s.turn == Playing ==>
            && (waited >= 45000 ==> t.turn == Error)
            && (waited < 45000 && !Observe(s.audio).player.x.failed ==>
                  || t.turn == s.turn
                  || (t.turn == Idle && s.audio.speaker && s.responseDone && s.audioDone)))
  {
    hide PollProvider, SuperviseTurn, FailRuntime, Observe, Elapsed, AudioInv, OrderInv, CompletionsInv, TimerInv, Sane;
    QuietPoll(s, input);
    InvSane(s);
    FailsToError(s, input.now);
    if s.turn == ConnectingProvider && !s.audio.speaker && Elapsed(input.now, s.timers.provider) < 20000 {
      QuietSession(s, input);
    } else if s.turn == WaitingResponse || s.turn == Playing {
      QuietReply(s, input);
    }
  }

  /** A recording goes on until ten seconds have passed, unless the button or a failure ends it. */
  lemma {:induction false} RecordingLimit(s: Runtime, input: Input)
    requires Inv(s) && Settled(s) && s.turn == RecordingAndStreaming && s.audio.microphone
    ensures var t := ServiceRecording(s, input);
      if Elapsed(input.now, s.timers.recording) >= 10000
      then t.turn == WaitingResponse || t.turn == Idle || t.turn == Error
      else t.turn == RecordingAndStreaming || t.turn == Error
  {
    hide StopAudio, Transport.Close, Transport.SendText, CommitInput, Elapsed;
    CapturedBounded(s);
    hide Inv, Settled;
  }

  // ---------- the button ----------

  /** Everything a press needs. */
  predicate CanRecord(s: Runtime, input: Input) {
    s.turn == Idle && s.link.status == Transport.Ready && input.button == Pressed
  }

  /** A press on a ready, idle device starts a recording, or fails it if the microphone or the unmute fails. */
  lemma {:induction false} Press(s: Runtime, input: Input)
    requires Inv(s) && Settled(s)
    ensures var t := ServiceButton(s, input);
      && (CanRecord(s, input) && input.microphoneStarts && Transport.Outcome(s.link) == Transport.Sent ==>
            && t.turn == RecordingAndStreaming && t.audio.microphone && t.frames == 0 && t.captured == 0
            && t.link.sent == s.link.sent + [Transport.Unmute] && !t.responseDone && !t.audioDone)
      && (CanRecord(s, input) && !(input.microphoneStarts && Transport.Outcome(s.link) == Transport.Sent) ==>
            t.turn == Error)
      && (t.turn == RecordingAndStreaming ==> s.turn == RecordingAndStreaming || CanRecord(s, input))
  {
    hide StopAudio, Transport.Close, FinishRecording, AudioInv, OrderInv, CompletionsInv, TimerInv;
  }

  /** The next two sends succeed. */
  predicate BothSent(l: Transport.Link) {
    |l.outcomes| >= 2 && l.outcomes[0] == Transport.Sent && l.outcomes[1] == Transport.Sent
  }

  lemma {:induction false} CommitSends(l: Transport.Link)
    requires l.status == Transport.Ready && l.socket == Transport.Up
    ensures var (c, ok) := CommitInput(l);
      (ok <==> BothSent(l)) && (ok ==> c.sent == l.sent + [Transport.Commit, Transport.Mute])
  {
  }

  /** Held too short, or without a frame: the recording is dropped and the microphone muted. */
  predicate TooShort(s: Runtime, input: Input) {
    Elapsed(input.now, s.timers.recording) < 300 || s.frames == 0
  }

  lemma {:induction false} ReleaseShort(s: Runtime, input: Input)
    requires Inv(s) && s.turn == RecordingAndStreaming && TooShort(s, input)
    ensures var t := FinishRecording(s, input);
      && t.turn == Idle && !t.audio.microphone
      && (s.link.status == Transport.Ready && Transport.Outcome(s.link) == Transport.Sent ==>
            t.link.sent == s.link.sent + [Transport.Mute])
  {
    hide StopAudio, Transport.Close, Elapsed, CommitInput, OrderInv, CompletionsInv, TimerInv, Sane;
    StopAudioKeeps(s.audio);
  }

  lemma {:induction false} ReleaseLong(s: Runtime, input: Input)
    requires Inv(s) && s.turn == RecordingAndStreaming && !TooShort(s, input)
    ensures var t := FinishRecording(s, input);
      && !t.audio.microphone
      && t.turn == (if s.link.status == Transport.Ready && BothSent(s.link) then WaitingResponse else Error)
      && (t.turn == WaitingResponse ==> t.link.sent == s.link.sent + [Transport.Commit, Transport.Mute])
  {
    hide StopAudio, Transport.Close, Elapsed, CommitInput, OrderInv, CompletionsInv, TimerInv, Sane, BothSent;
    StopAudioKeeps(s.audio);
    if s.link.status == Transport.Ready {
      CommitSends(s.link);
      FailedTurn(s.(audio := StopAudio(s.audio), link := CommitInput(s.link).0), input.now);
    } else {
      assert CommitInput(s.link) == (s.link, false) by {
        NotReady(s.link);
      }
      FailedTurn(s.(audio := StopAudio(s.audio)), input.now);
    }
  }

  lemma {:induction false} NotReady(l: Transport.Link)
    requires l.status != Transport.Ready
    ensures CommitInput(l) == (l, false)
  {
  }

  lemma {:induction false} FailedTurn(s: Runtime, now: nat)
    requires Sane(s.audio.player) && s.turn != Unconfigured
    ensures FailRuntime(s, now).turn == Error && !FailRuntime(s, now).audio.microphone
  {
    hide StopAudio, Transport.Close, Sane;
    StopAudioKeeps(s.audio);
  }

  /**
   A release ends the recording: after at least 300 ms and with a frame sent it is committed and then muted, which
   needs a ready connection and both sends; otherwise it is muted and the device idle again.
   */
  lemma {:induction false} Release(s: Runtime, input: Input)
    requires Inv(s) && Settled(s) && s.turn == RecordingAndStreaming && input.button == Released
    ensures var t := ServiceButton(s, input);
      && !t.audio.microphone
      && t.turn == (if TooShort(s, input) then Idle
                    else if s.link.status == Transport.Ready && BothSent(s.link) then WaitingResponse else Error)
      && (t.turn == WaitingResponse ==> t.link.sent == s.link.sent + [Transport.Commit, Transport.Mute])
      && (t.turn == Idle && s.link.status == Transport.Ready && Transport.Outcome(s.link) == Transport.Sent ==>
            t.link.sent == s.link.sent + [Transport.Mute])
  {
    hide FinishRecording, Inv, Settled, TooShort, BothSent;
    if TooShort(s, input) {
      ReleaseShort(s, input);
    } else {
      ReleaseLong(s, input);
    }
  }
}
