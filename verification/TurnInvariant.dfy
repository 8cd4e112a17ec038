/** What every service function of the runtime keeps. */
module TurnInvariant {
  import opened Common
  import opened VoiceTurn
  import opened TurnRuntime
  import Transport = RealtimeTransport
  import Protocol = SessionProtocol
  import Playback = PlaybackMachine
  import Threads = PlaybackInvariant
  import PlaybackTheorems
  import Calls = PlaybackCalls

  // ---------- the invariants ----------

  /** States in which the runtime has no session. */
  predicate Offline(t: TurnState) {
    t == ConnectingWifi || t == SyncingClock || t == Error
  }

  /** The transport's status fits the turn state at every point of a loop. */
  ghost predicate LinkInv(s: Runtime) {
    && s.turn != Unconfigured
    && (Offline(s.turn) <==> s.link.status == Transport.Idle)
    && (Offline(s.turn) ==> s.link.socket == Transport.Down && s.link.events == [])
    && (s.link.closing <==> s.link.status == Transport.Idle)
    && (s.link.status == Transport.Connecting ==> s.turn == ConnectingProvider && s.link.socket != Transport.Up)
    && (s.link.status == Transport.AwaitingSession ==>
          s.turn == ConnectingProvider && s.link.socket == Transport.Up)
    && (s.link.status == Transport.Ready ==> s.link.socket == Transport.Up)
  }

  /** What is more between loops and after serviceProvider: nothing is queued, no failure is pending. */
  ghost predicate Settled(s: Runtime) {
    && LinkInv(s)
    && s.link.events == []
    && s.link.status != Transport.ProviderError && s.link.status != Transport.ProtocolError
    && (s.link.status == Transport.Disconnected ==> s.turn == Idle && s.link.socket == Transport.Down)
    && (s.link.status == Transport.Ready ==> s.turn != ConnectingProvider)
    && !(s.turn == RecordingAndStreaming && Finished(s))
  }

  /** A reply that serviceProvider would complete. */
  predicate Finished(s: Runtime) {
    s.audio.speaker && s.responseDone && s.audioDone && s.audio.player.x.drained
  }

  /** No operation of the player is running, and its two threads keep their invariant. */
  ghost predicate Sane(p: Playback.State) {
    Threads.Inv(p) && p.c.pc == Playback.Ready
  }

  /** The player's invariant and the frame's bound, which a failure must find intact. */
  ghost predicate Failable(s: Runtime) {
    && s.turn != Unconfigured
    && s.captured <= SAMPLES_PER_FRAME
    && Sane(s.audio.player)
  }

  /** The player's turn is not cancelled and has accepted what was fed to it. */
  predicate Fed(s: Runtime) {
    !s.audio.player.h.cancelled && s.audio.player.h.accepted == s.past.fed
  }

  /** Half duplex, and what a heard reply implies. */
  ghost predicate AudioInv(s: Runtime) {
    && !(s.audio.microphone && s.audio.speaker)
    && (s.audio.microphone ==> s.turn == RecordingAndStreaming)
    && (Offline(s.turn) ==> !s.audio.speaker)
    && Failable(s)
    && (s.audio.speaker ==> Fed(s))
    && (s.past.heard && s.audio.speaker ==> s.past.fed != [])
    && (s.past.heard && (s.turn == WaitingResponse || s.turn == Playing) ==> s.audio.speaker)
    && (s.turn == RecordingAndStreaming ==> (s.audio.microphone <==> !s.past.interrupted))
  }

  predicate ProperCompletion(c: Completion) {
    && (c.from == WaitingResponse || c.from == Playing)
    && c.responseDone
    && (c.heard ==> c.audioDone && c.player.x.drained && c.fed != [] && c.player.h.accepted == c.fed)
    && (c.heard && c.player.h.begun != Playback.Harmful ==>
          && (c.player.h.played == c.fed <==> !c.player.h.early || PlaybackTheorems.NothingSinceSample(c.player))
          && (c.player.h.early && c.player.h.markDone ==> c.player.h.played == c.fed))
  }

  ghost predicate CompletionsInv(s: Runtime) {
    forall i :: 0 <= i < |s.past.completions| ==> ProperCompletion(s.past.completions[i])
  }

  function PhaseNow(s: Runtime): Protocol.Phase {
    Protocol.PhaseOf(s.link.sent)
  }

  predicate Closable(p: Protocol.Phase) {
    p == Protocol.Muted || p == Protocol.Unmuted || p == Protocol.Streaming || p == Protocol.Committed
  }

  /** The order is broken exactly by an unmute after a lost mute. */
  ghost predicate BrokenExactly(s: Runtime) {
    && (PhaseNow(s) == Protocol.Broken <==> s.past.reopened)
    && (s.past.reopened ==> s.past.unmuted)
  }

  /** Enough order for a failure to close the session at this point. */
  ghost predicate Orderly(s: Runtime) {
    !s.past.recreated ==>
      && BrokenExactly(s)
      && (s.link.status == Transport.Ready && !s.past.reopened ==> Closable(PhaseNow(s)))
  }

  /** The phase of a ready connection whose order is not broken. */
  ghost predicate InPhase(s: Runtime) {
    if s.past.unmuted then s.turn == Idle && (PhaseNow(s) == Protocol.Unmuted || PhaseNow(s) == Protocol.Streaming)
    else PhaseNow(s) == if s.turn != RecordingAndStreaming then Protocol.Muted
                        else if s.frames == 0 then Protocol.Unmuted else Protocol.Streaming
  }

  /** The connection's messages are in order, and the phase is the one the turn state calls for. */
  ghost predicate OrderInv(s: Runtime) {
    !s.past.recreated ==>
      && BrokenExactly(s)
      && (s.link.status == Transport.AwaitingSession ==> PhaseNow(s) == Protocol.Created && !s.past.unmuted)
      && (s.link.status == Transport.Ready && !s.past.reopened ==> InPhase(s))
  }

  const WRAP: nat := 0x1_0000_0000

  function TimerOf(s: Runtime): nat {
    match s.turn
    case ConnectingWifi => s.timers.wifi
    case SyncingClock => s.timers.clock
    case ConnectingProvider => s.timers.provider
    case RecordingAndStreaming => s.timers.recording
    case WaitingResponse => s.timers.response
    case Playing => s.timers.response
    case Error => s.timers.error
    case _ => U32(s.past.since)
  }

  /** How long a state may last, in milliseconds. */
  function LimitOf(t: TurnState): nat {
    match t
    case ConnectingWifi => 15000
    case SyncingClock => 20000
    case ConnectingProvider => 20000
    case RecordingAndStreaming => 10000
    case WaitingResponse => 45000
    case Playing => 45000
    case Error => 5000
    case _ => WRAP
  }

  /** States bounded by a timer. A recording interrupted by reply audio waits for the button. */
  predicate Timed(s: Runtime) {
    s.turn != Idle && (s.turn == RecordingAndStreaming ==> !s.past.interrupted)
  }

  /** The state's timer is the low word of the real time the state was entered. */
  ghost predicate TimerInv(s: Runtime) {
    Timed(s) ==> TimerOf(s) == U32(s.past.since)
  }

  /** The clock has not wrapped past the state's entry, so a uint32_t difference is exact. */
  predicate Window(s: Runtime, now: nat) {
    Timed(s) ==> s.past.since <= now < s.past.since + WRAP
  }

  /** The state has not outlived its limit. */
  predicate InTime(s: Runtime, now: nat) {
    Timed(s) ==> s.past.since <= now < s.past.since + LimitOf(s.turn)
  }

  lemma {:induction false} ElapsedExact(now: nat, since: nat)
    requires since <= now < since + WRAP
    ensures Elapsed(now, U32(since)) == now - since
  {
    assert now == WRAP * (now / WRAP) + now % WRAP;
    assert since == WRAP * (since / WRAP) + since % WRAP;
  }

  // ---------- the player's operations ----------

  lemma {:induction false} StopAudioKeeps(a: Audio)
    requires Sane(a.player)
    ensures var b := StopAudio(a);
      && !b.microphone && !b.speaker && Sane(b.player)
      && (!a.speaker ==> b.player == a.player)
  {
    hide Threads.Inv, Calls.Called, Calls.Serving;
    if a.speaker {
      Calls.CallServes(a.player, Playback.Cancel, NextSchedule(a));
    }
  }

  lemma {:induction false} ObserveKeeps(a: Audio)
    requires Sane(a.player)
    ensures var b := Observe(a);
      && b.microphone == a.microphone && b.speaker == a.speaker && Sane(b.player)
      && b.player.h.cancelled == a.player.h.cancelled && b.player.h.accepted == a.player.h.accepted
  {
    hide Threads.Inv, Calls.Interleave;
    Calls.RestKeeps(a.player, NextSchedule(a));
  }

  lemma {:induction false} ReportKeeps(a: Audio)
    requires Sane(a.player)
    ensures var b := ReportFailure(a); b == a.(player := b.player) && Sane(b.player)
  {
    hide Threads.Inv;
    Threads.CallKeepsInv(a.player, Playback.ReportFailure(true));
  }

  lemma {:induction false} CallKeeps(a: Audio, call: Playback.Call)
    requires Sane(a.player)
    ensures var b := CallPlayer(a, call);
      && b.microphone == a.microphone && b.speaker == a.speaker && Sane(b.player)
      && b.player.c.pc == Playback.Ready && Calls.Serving(b.player, call, a.player)
  {
    hide Threads.Inv, Calls.Called, Calls.Serving;
    Calls.CallServes(a.player, call, NextSchedule(a));
  }

  // ---------- failing ----------

  lemma {:induction false} CloseKeepsOrder(l: Transport.Link)
    requires l.status == Transport.Ready && Protocol.PhaseOf(l.sent) != Protocol.Broken ==>
      Closable(Protocol.PhaseOf(l.sent))
    ensures Protocol.PhaseOf(Transport.Close(l).sent) == Protocol.Broken
       <==> Protocol.PhaseOf(l.sent) == Protocol.Broken
  {
    Protocol.PhaseOfSend(l.sent, Transport.SessionClose);
  }

  lemma {:induction false} CloseIsIdle(l: Transport.Link)
    ensures var c := Transport.Close(l);
      c.status == Transport.Idle && c.socket == Transport.Down && c.events == [] && c.closing
  {
  }

  /** Wherever the runtime fails, it ends offline, silent, in order, with its retry timer started. */
  lemma {:induction false} FailKeeps(s: Runtime, now: nat)
    requires Failable(s)
    ensures var t := FailRuntime(s, now);
      && t.turn == Error && Settled(t) && AudioInv(t) && TimerInv(t) && InTime(t, now)
      && (CompletionsInv(s) ==> CompletionsInv(t))
  {
    hide StopAudio, Sane, Transport.Close, Fed;
    CloseIsIdle(s.link);
    StopAudioKeeps(s.audio);
  }

  lemma {:induction false} FailOrder(s: Runtime, now: nat)
    requires Orderly(s)
    ensures OrderInv(FailRuntime(s, now))
  {
    hide StopAudio, Transport.Close;
    CloseIsIdle(s.link);
    if !s.past.recreated {
      CloseKeepsOrder(s.link);
    }
  }

  /** Kept by every service function, at every point of a loop. */
  ghost predicate Inv(s: Runtime) {
    LinkInv(s) && AudioInv(s) && CompletionsInv(s) && OrderInv(s) && TimerInv(s)
  }

  /** Exact timers, and every offline state within its limit. */
  predicate Timely(s: Runtime, now: nat) {
    Window(s, now) && (Offline(s.turn) ==> InTime(s, now))
  }

  /** Exact timers, and every state but a recording within its limit. */
  predicate OnTime(s: Runtime, now: nat) {
    Window(s, now) && (s.turn != RecordingAndStreaming ==> InTime(s, now))
  }

  lemma {:induction false} FailKeepsInv(s: Runtime, now: nat)
    requires Failable(s) && CompletionsInv(s) && Orderly(s)
    ensures var t := FailRuntime(s, now); Inv(t) && Settled(t) && InTime(t, now) && t.turn == Error
  {
    hide FailRuntime, OrderInv;
    FailKeeps(s, now);
    FailOrder(s, now);
  }

  lemma {:induction false} OrderlyOf(s: Runtime)
    requires OrderInv(s)
    ensures Orderly(s)
  {
  }

  /** The same from any point of a loop. */
  lemma {:induction false} FailsWell(s: Runtime, now: nat)
    requires Inv(s)
    ensures var t := FailRuntime(s, now); Inv(t) && Settled(t) && InTime(t, now) && t.turn == Error
  {
    hide FailRuntime, OrderInv, Orderly, CompletionsInv, Sane, LinkInv, TimerInv;
    OrderlyOf(s);
    FailKeepsInv(s, now);
  }

  // ---------- the network ----------

  /** From one timer to the next while there is no session. */
  lemma {:induction false} OfflineMoves(s: Runtime, t: Runtime)
    requires Inv(s) && Settled(s) && Offline(s.turn) && Offline(t.turn)
    requires t == s.(turn := t.turn, timers := t.timers, past := s.past.(since := t.past.since))
    requires TimerOf(t) == U32(t.past.since)
    ensures Inv(t) && Settled(t)
  {
    hide Sane, Fed, ProperCompletion, InPhase;
  }

  lemma {:induction false} ProviderConnectionKeeps(s: Runtime, input: Input)
    requires Inv(s) && Settled(s) && s.turn == SyncingClock
    ensures var t := StartProviderConnection(s.(turn := ConnectingProvider), input);
      Inv(t) && Settled(t) && Timely(t, input.now)
  {
    hide Sane, Fed, ProperCompletion, FailRuntime, InPhase;
    var r := s.(turn := ConnectingProvider);
    if !input.sessionValid {
      FailKeepsInv(r.(link := Transport.Begin(r.link, false)), input.now);
    }
  }

  lemma {:induction false} NetworkKeeps(s: Runtime, input: Input)
    requires Inv(s) && Settled(s)
    ensures var t := ServiceNetwork(s, input);
      Inv(t) && Settled(t) && (Window(s, input.now) ==> Timely(t, input.now))
  {
    hide FailRuntime, StartProviderConnection, Elapsed, AudioInv, CompletionsInv, OrderInv, LinkInv, Settled;
    FailsWell(s, input.now);
    if Timed(s) && Window(s, input.now) {
      ElapsedExact(input.now, s.past.since);
    }
    var t := ServiceNetwork(s, input);
    if s.turn == SyncingClock && input.wifi && input.clock {
      ProviderConnectionKeeps(s, input);
    } else if Offline(s.turn) && t != s && t.turn != Error {
      OfflineMoves(s, t);
    }
  }

  // ---------- the socket ----------

  /** The server's first session.created on a live connection is muted at once. */
  lemma {:induction false} TextKeepsOrder(s: Runtime, e: Transport.Event)
    requires OrderInv(s) && s.link.events == [] && s.link.socket == Transport.Up
    requires e == Transport.SessionCreated && !s.past.recreated ==> s.link.status == Transport.AwaitingSession
    requires s.link.status == Transport.AwaitingSession ==> s.turn == ConnectingProvider
    ensures OrderInv(s.(link := Transport.OnText(s.link, e)))
  {
    Protocol.PhaseOfSend(s.link.sent, Transport.Mute);
  }

  lemma {:induction false} TextKeepsLink(s: Runtime, e: Transport.Event)
    requires LinkInv(s) && s.link.events == [] && s.link.socket == Transport.Up
    ensures var t := s.(link := Transport.OnText(s.link, e)); LinkInv(t) && |t.link.events| <= 1
  {
  }

  lemma {:induction false} PollKeepsLink(s: Runtime, input: Transport.SocketInput)
    requires Settled(s) && !Offline(s.turn)
    ensures var t := s.(link := Transport.Poll(s.link, input)); LinkInv(t) && |t.link.events| <= 1
  {
    match input
    case Text(e) => if s.link.socket == Transport.Up { TextKeepsLink(s, e); }
    case _ =>
  }

  lemma {:induction false} PollKeepsOrder(s: Runtime, input: Transport.SocketInput)
    requires Settled(s) && OrderInv(s) && !Offline(s.turn)
    ensures OrderInv(s.(link := Transport.Poll(s.link, input), past := NoteSession(s, input)))
  {
    match input
    case Text(e) =>
      if s.link.socket == Transport.Up {
        TextKeepsOrder(s.(past := NoteSession(s, input)), e);
      }
    case Opened =>
      Protocol.PhaseOfSend([], Transport.SessionCreate);
      assert [] + [Transport.SessionCreate] == [Transport.SessionCreate];
    case _ =>
  }

  // ---------- server events ----------

  lemma {:induction false} BeginPlaybackKeeps(s: Runtime, input: Input)
    requires AudioInv(s)
    ensures var (r, ok) := BeginPlayback(s, input);
      && r == s.(audio := r.audio, past := s.past.(fed := r.past.fed)) && Failable(r)
      && (ok ==> r.audio.speaker && !r.audio.microphone && Fed(r))
  {
    hide StopAudio, ReportFailure, CallPlayer, Sane;
    StopAudioKeeps(s.audio);
    var a := StartSpeaker(s.audio, input.speakerStarts);
    if !s.audio.speaker {
      ReportKeeps(a);
      CallKeeps(a, Playback.BeginTurn);
    }
  }

  lemma {:induction false} EnqueueKeeps(s: Runtime, pcm: seq<byte>)
    requires Failable(s) && Fed(s)
    ensures var (r, ok) := EnqueueAudio(s, pcm);
      && r == s.(turn := Next(s.turn, OutputAudioStarted), audio := r.audio, past := r.past)
      && r.audio.speaker == s.audio.speaker && r.audio.microphone == s.audio.microphone && Failable(r)
      && r.past == (if !ok then s.past else
                      s.past.(heard := true, fed := s.past.fed + pcm,
                              interrupted := s.past.interrupted || s.turn == RecordingAndStreaming))
      && (ok ==> Fed(r))
  {
    hide CallPlayer, Sane;
    CallKeeps(s.audio, Playback.Enqueue(pcm));
  }

  /** Nothing but the audio, its history and the step from waiting to playing changes. */
  ghost predicate Heard(s: Runtime, t: Runtime) {
    && t == s.(turn := Next(s.turn, OutputAudioStarted), audio := t.audio, past := t.past)
    && t.past == s.past.(heard := true, fed := t.past.fed, interrupted := t.past.interrupted)
    && t.audio.speaker && !t.audio.microphone && Failable(t) && Fed(t) && t.past.fed != []
    && (s.turn == RecordingAndStreaming ==> t.past.interrupted)
  }

  lemma {:induction false} HeardKeeps(s: Runtime, t: Runtime, now: nat)
    requires Inv(s) && !Offline(s.turn) && Heard(s, t)
    ensures Inv(t) && (Window(s, now) ==> Timely(t, now))
  {
    hide Sane, Fed, ProperCompletion;
  }

  lemma {:induction false} WriteOutcome(s: Runtime, pcm: seq<byte>, input: Input)
    requires AudioInv(s) && pcm != []
    ensures var (begun, playing) := BeginPlayback(s, input);
      && Failable(begun) && begun == s.(audio := begun.audio, past := s.past.(fed := begun.past.fed))
      && (playing ==>
            var (queued, taken) := EnqueueAudio(begun, pcm);
            && queued == s.(turn := Next(s.turn, OutputAudioStarted), audio := queued.audio, past := queued.past)
            && Failable(queued)
            && (!taken ==> queued.past == begun.past)
            && (taken ==> Heard(s, queued)))
  {
    hide BeginPlayback, EnqueueAudio, Sane, Next;
    BeginPlaybackKeeps(s, input);
    var (begun, playing) := BeginPlayback(s, input);
    if playing {
      EnqueueKeeps(begun, pcm);
    }
  }

  lemma {:induction false} FedAside(s: Runtime, t: Runtime, now: nat)
    requires CompletionsInv(s) && OrderInv(s) && Failable(t)
    requires t == s.(turn := t.turn, audio := t.audio, past := s.past.(fed := t.past.fed))
    ensures var u := FailRuntime(t, now); Inv(u) && Settled(u) && InTime(u, now) && u.turn == Error
  {
    hide FailRuntime, Sane, ProperCompletion;
    assert Orderly(t);
    FailKeepsInv(t, now);
  }

  lemma {:induction false} WriteKeeps(s: Runtime, pcm: Option<seq<byte>>, input: Input)
    requires Inv(s) && !Offline(s.turn)
    ensures var t := WriteOutputAudio(s, pcm, input); Inv(t) && (Window(s, input.now) ==> Timely(t, input.now))
  {
    hide FailRuntime, BeginPlayback, EnqueueAudio, ReportFailure, Sane, Heard;
    hide OrderInv, CompletionsInv, LinkInv, TimerInv;
    if !Playable(pcm) {
      ReportKeeps(s.audio);
      FedAside(s, s.(audio := ReportFailure(s.audio)), input.now);
    } else {
      WriteOutcome(s, pcm.value, input);
      var (begun, playing) := BeginPlayback(s, input);
      if !playing {
        FedAside(s, begun, input.now);
      } else {
        var (queued, taken) := EnqueueAudio(begun, pcm.value);
        if taken {
          HeardKeeps(s, queued, input.now);
        } else {
          FedAside(s, queued, input.now);
        }
      }
    }
  }

  /** A turn completes only as a proper completion. */
  lemma {:induction false} CompletesProperly(s: Runtime)
    requires AudioInv(s) && Accepts(s.turn, ResponseDone) && s.responseDone
    requires s.audio.speaker ==> s.audioDone && s.audio.player.x.drained
    ensures ProperCompletion(Completion(s.turn, s.past.heard, s.responseDone, s.audioDone, s.past.fed, s.audio.player))
  {
    if s.past.heard && s.audio.player.h.begun != Playback.Harmful {
      DrainedPlayer(s.audio.player);
    }
  }

  lemma {:induction false} DrainedPlayer(p: Playback.State)
    requires Sane(p) && p.h.begun != Playback.Harmful && !p.h.cancelled && p.x.drained
    ensures p.h.played == p.h.accepted <==> !p.h.early || PlaybackTheorems.NothingSinceSample(p)
    ensures p.h.early && p.h.markDone ==> p.h.played == p.h.accepted
  {
    hide Threads.DataInv, Threads.DrainInv, Threads.EarlyInv, Threads.PaceInv;
    PlaybackTheorems.DrainedState(p);
  }

  lemma {:induction false} CompleteKeeps(s: Runtime, input: Input)
    requires Inv(s) && !Offline(s.turn) && s.responseDone
    requires s.audio.speaker ==> s.audioDone && s.audio.player.x.drained
    ensures var t := CompleteTurn(s, input);
      Inv(t) && (Window(s, input.now) ==> Timely(t, input.now))
      && (s.link.events == [] && s.link.status != Transport.ProviderError && s.link.status != Transport.ProtocolError
          && s.link.status != Transport.Disconnected
          && !(s.turn == ConnectingProvider && s.link.status == Transport.Ready)
          ==> Settled(t) && InTime(t, input.now))
  {
    hide FailRuntime, StopAudio, Sane, ProperCompletion;
    StopAudioKeeps(s.audio);
    if Accepts(s.turn, ResponseDone) {
      CompletesProperly(s);
    } else {
      FailKeepsInv(s.(audio := StopAudio(s.audio)), input.now);
    }
  }

  lemma {:induction false} StartedKeeps(s: Runtime, now: nat)
    requires Inv(s) && !Offline(s.turn)
    ensures var t := s.(turn := Next(s.turn, OutputAudioStarted)); Inv(t) && (Window(s, now) ==> Timely(t, now))
  {
    hide Sane, ProperCompletion;
  }

  /** An event that only notes what the server has finished. */
  lemma {:induction false} NoteKeeps(s: Runtime, t: Runtime, now: nat)
    requires Inv(s) && !Offline(s.turn)
    requires t == s.(responseDone := t.responseDone, audioDone := t.audioDone, audio := t.audio)
    requires t.audio.microphone == s.audio.microphone && t.audio.speaker == s.audio.speaker
    requires Sane(t.audio.player) && t.audio.player.h.cancelled == s.audio.player.h.cancelled
    requires t.audio.player.h.accepted == s.audio.player.h.accepted
    ensures Inv(t) && (Window(s, now) ==> Timely(t, now))
  {
    hide Sane, ProperCompletion, InPhase;
    assert InPhase(s) ==> InPhase(t) by {
      SamePhase(s, t);
    }
  }

  lemma {:induction false} SamePhase(s: Runtime, t: Runtime)
    requires t.link == s.link && t.turn == s.turn && t.past == s.past && t.frames == s.frames
    ensures InPhase(s) ==> InPhase(t)
  {
  }

  lemma {:induction false} EventKeeps(s: Runtime, e: Transport.Event, input: Input)
    requires Inv(s) && !Offline(s.turn)
    ensures var t := HandleEvent(s, e, input); Inv(t) && (Window(s, input.now) ==> Timely(t, input.now))
  {
    hide FailRuntime, WriteOutputAudio, CompleteTurn, CallPlayer, Sane, Next;
    hide LinkInv, CompletionsInv, OrderInv, TimerInv;
    FailsWell(s, input.now);
    match e
    case AudioStarted => StartedKeeps(s, input.now);
    case AudioDelta(pcm) => WriteKeeps(s, pcm, input);
    case AudioDone =>
      CallKeeps(s.audio, Playback.FinishInput);
      NoteKeeps(s, HandleEvent(s, e, input), input.now);
    case ResponseDone =>
      var r := s.(responseDone := true);
      NoteKeeps(s, r, input.now);
      if !s.audio.speaker {
        CompleteKeeps(r, input);
      }
    case _ =>
  }

  lemma {:induction false} EventsKeep(s: Runtime, input: Input)
    requires Inv(s)
    ensures var t := ServiceEvents(s, input);
      Inv(t) && t.link.events == [] && (Timely(s, input.now) ==> Timely(t, input.now))
    decreases |s.link.events|
  {
    hide HandleEvent;
    if s.link.events != [] {
      var popped := s.(link := s.link.(events := s.link.events[1..]));
      EventKeeps(popped, s.link.events[0], input);
      EventsKeep(HandleEvent(popped, s.link.events[0], input), input);
    }
  }

  lemma {:induction false} PollProviderKeeps(s: Runtime, input: Input)
    requires Inv(s) && Settled(s)
    ensures var t := PollProvider(s, input);
      Inv(t) && t.link.events == [] && (Timely(s, input.now) ==> Timely(t, input.now))
  {
    hide ServiceEvents, Transport.Poll, Transport.OnText, OrderInv, Sane, ProperCompletion;
    if s.link.status == Transport.Idle {
      EventsKeep(s, input);
    } else {
      PollKeepsLink(s, input.socket);
      PollKeepsOrder(s, input.socket);
      var t := s.(link := Transport.Poll(s.link, input.socket), past := NoteSession(s, input.socket));
      assert t.past.since == s.past.since;
      EventsKeep(t, input);
    }
  }

  // ---------- supervision ----------

  /** What the playback task does between two looks changes nothing else. */
  lemma {:induction false} ObserveKeepsInv(s: Runtime)
    requires Inv(s)
    ensures Inv(s.(audio := Observe(s.audio)))
  {
    hide Observe, Sane, ProperCompletion;
    ObserveKeeps(s.audio);
  }

  lemma {:induction false} SupervisePlayerKeeps(s: Runtime, input: Input)
    requires Inv(s) && s.link.events == []
    requires s.link.status != Transport.ProviderError && s.link.status != Transport.ProtocolError
    requires s.link.status != Transport.Disconnected
    requires s.turn == ConnectingProvider ==> s.link.status != Transport.Ready
    ensures var t := SupervisePlayer(s, input);
      && Inv(t) && Settled(t)
      && (Timely(s, input.now) && (s.turn == ConnectingProvider ==> InTime(s, input.now)) ==> OnTime(t, input.now))
  {
    hide FailRuntime, CompleteTurn, Elapsed, Observe, Sane, ProperCompletion, CompletionsInv, OrderInv;
    FailsWell(s, input.now);
    if Timed(s) && Window(s, input.now) {
      ElapsedExact(input.now, s.past.since);
    }
    ObserveKeepsInv(s);
    var r := s.(audio := Observe(s.audio));
    if Finished(r) && !Offline(r.turn) {
      CompleteKeeps(r, input);
    }
  }

  lemma {:induction false} SuperviseKeeps(s: Runtime, input: Input)
    requires Inv(s) && s.link.events == []
    requires s.turn == ConnectingProvider ==> s.link.status != Transport.Ready
    ensures var t := SuperviseTurn(s, input);
      && Inv(t) && Settled(t)
      && (Timely(s, input.now) && (s.turn == ConnectingProvider ==> InTime(s, input.now)) ==> OnTime(t, input.now))
  {
    hide FailRuntime, SupervisePlayer, Observe, Sane, CompletionsInv, OrderInv, AudioInv, TimerInv;
    if s.link.status == Transport.ProviderError || s.link.status == Transport.ProtocolError
       || s.link.status == Transport.Disconnected
    {
      FailsWell(s, input.now);
    } else {
      ObserveKeepsInv(s);
      SupervisePlayerKeeps(s.(audio := Observe(s.audio)), input);
    }
  }

  lemma {:induction false} ProviderConnects(s: Runtime)
    requires Inv(s) && s.link.events == [] && s.turn == ConnectingProvider && s.link.status == Transport.Ready
    ensures var t := s.(turn := Idle); Inv(t) && Settled(t)
  {
    hide Sane, ProperCompletion;
  }

  lemma {:induction false} ProviderKeeps(s: Runtime, input: Input)
    requires Inv(s) && Settled(s)
    ensures var t := ServiceProvider(s, input);
      Inv(t) && Settled(t) && (Timely(s, input.now) ==> OnTime(t, input.now))
  {
    hide PollProvider, SuperviseTurn, FailRuntime, Elapsed, AudioInv, OrderInv, CompletionsInv, Settled, LinkInv;
    PollProviderKeeps(s, input);
    var r := PollProvider(s, input);
    FailsWell(r, input.now);
    if Timed(r) && Window(r, input.now) {
      ElapsedExact(input.now, r.past.since);
    }
    if r.turn == ConnectingProvider && r.link.status == Transport.Ready {
      ProviderConnects(r);
    } else if !(r.turn == ConnectingProvider
                && Elapsed(input.now, r.timers.provider) >= PROVIDER_CONNECT_TIMEOUT_MS)
    {
      SuperviseKeeps(r, input);
    }
  }

  // ---------- recording ----------

  /** What a send on a live, ready connection can do. */
  lemma {:induction false} SendMeans(l: Transport.Link, m: Transport.Message)
    requires l.socket == Transport.Up && l.status == Transport.Ready && !l.closing
    ensures var t := Transport.SendText(l, m);
      match Transport.Outcome(l)
      case Sent => t == l.(outcomes := t.outcomes, sent := l.sent + [m])
      case Failed => t == l.(outcomes := t.outcomes)
      case Lost => t == l.(outcomes := t.outcomes, socket := Transport.Down, status := Transport.Disconnected)
  {
  }

  lemma {:induction false} UnmuteKeepsOrder(s: Runtime)
    requires OrderInv(s) && s.turn == Idle && s.link.status == Transport.Ready && s.link.socket == Transport.Up
    requires !s.link.closing
    ensures var l := Transport.SendText(s.link, Transport.Unmute);
      var t := s.(turn := RecordingAndStreaming, frames := 0, link := l);
      && Orderly(s) && (Transport.Outcome(s.link) != Transport.Sent ==> Orderly(t))
      && (Transport.Outcome(s.link) == Transport.Sent ==>
            OrderInv(t.(past := s.past.(reopened := s.past.reopened || s.past.unmuted))))
  {
    hide Transport.SendText, Protocol.PhaseOf;
    SendMeans(s.link, Transport.Unmute);
    Protocol.PhaseOfSend(s.link.sent, Transport.Unmute);
  }

  lemma {:induction false} BeginKeeps(s: Runtime, input: Input)
    requires Inv(s) && Settled(s) && s.turn == Idle
    ensures var t := BeginRecording(s, input);
      Inv(t) && Settled(t) && InTime(t, input.now)
  {
    hide FailRuntime, StopAudio, Sane, OrderInv, Orderly, ProperCompletion;
    if s.link.status == Transport.Ready {
      StopAudioKeeps(s.audio);
      UnmuteKeepsOrder(s);
      var r := s.(turn := RecordingAndStreaming, responseDone := false, audioDone := false, captured := 0,
                  frames := 0, audio := StartMicrophone(s.audio, input.microphoneStarts));
      var asked := r.(link := Transport.SendText(r.link, Transport.Unmute));
      SameOrder(s, r);
      FailKeepsInv(r, input.now);
      if input.microphoneStarts {
        if Transport.Outcome(s.link) == Transport.Sent {
          BeginOrder(s, input);
        } else {
          SameOrder(s.(turn := RecordingAndStreaming, frames := 0, link := asked.link), asked);
          FailKeepsInv(asked, input.now);
        }
      }
    }
  }

  lemma {:induction false} SameOrder(s: Runtime, t: Runtime)
    requires Orderly(s) && t.link == s.link && t.past == s.past
    ensures Orderly(t)
  {
  }

  lemma {:induction false} BeginOrder(s: Runtime, input: Input)
    requires OrderInv(s) && s.turn == Idle && s.link.status == Transport.Ready && s.link.socket == Transport.Up
    requires !s.link.closing
    requires input.microphoneStarts && Transport.Outcome(s.link) == Transport.Sent
    ensures OrderInv(BeginRecording(s, input))
  {
    hide FailRuntime, StopAudio, Transport.SendText;
    UnmuteKeepsOrder(s);
  }

  lemma {:induction false} CancelKeepsOrder(s: Runtime)
    requires OrderInv(s) && s.turn == RecordingAndStreaming && s.link.socket == Transport.Up
    requires s.link.status == Transport.Ready && !s.link.closing
    ensures OrderInv(CancelRecording(s))
  {
    hide Transport.SendText, Protocol.PhaseOf;
    SendMeans(s.link, Transport.Mute);
    Protocol.PhaseOfSend(s.link.sent, Transport.Mute);
  }

  lemma {:induction false} CancelRecordingKeeps(s: Runtime)
    requires LinkInv(s) && CompletionsInv(s) && OrderInv(s) && Settled(s) && Failable(s)
    requires s.turn == RecordingAndStreaming && !s.audio.microphone && !s.audio.speaker
    ensures var t := CancelRecording(s); Inv(t) && Settled(t) && t.turn == Idle
  {
    hide Sane, OrderInv, ProperCompletion, Fed;
    CancelKeepsOrder(s);
  }

  /** Both messages of a commit keep the order, whatever the socket does with either. */
  lemma {:induction false} CommitKeepsOrder(l: Transport.Link)
    requires Protocol.PhaseOf(l.sent) == Protocol.Streaming && l.status == Transport.Ready && l.socket == Transport.Up
    ensures var (c, ok) := CommitInput(l);
      && Protocol.PhaseOf(c.sent) != Protocol.Broken
      && (c.status == Transport.Ready ==> Closable(Protocol.PhaseOf(c.sent)))
      && (ok ==> Protocol.PhaseOf(c.sent) == Protocol.Muted)
  {
    Protocol.PhaseOfSend(l.sent, Transport.Commit);
    Protocol.PhaseOfSend(l.sent + [Transport.Commit], Transport.Mute);
  }

  /** An order once broken stays so. */
  lemma {:induction false} CommitStaysBroken(l: Transport.Link)
    requires Protocol.PhaseOf(l.sent) == Protocol.Broken
    ensures Protocol.PhaseOf(CommitInput(l).0.sent) == Protocol.Broken
  {
    Protocol.PhaseOfSend(l.sent, Transport.Commit);
    Protocol.PhaseOfSend(l.sent + [Transport.Commit], Transport.Mute);
    Protocol.PhaseOfSend(l.sent, Transport.Mute);
  }

  lemma {:induction false} CommitKeepsLink(l: Transport.Link)
    requires l.status == Transport.Ready && l.socket == Transport.Up && !l.closing && l.events == []
    ensures var (c, ok) := CommitInput(l);
      ok ==> c == l.(outcomes := c.outcomes, sent := c.sent)
  {
  }

  lemma {:induction false} CommitOrder(s: Runtime)
    requires OrderInv(s) && s.turn == RecordingAndStreaming && s.frames > 0
    requires s.link.status == Transport.Ready && s.link.socket == Transport.Up
    requires !s.link.closing && s.link.events == []
    ensures var (link, ok) := CommitInput(s.link); var t := s.(link := link);
      Orderly(t) && (ok ==> OrderInv(t.(turn := WaitingResponse)))
  {
    hide CommitInput;
    CommitKeepsLink(s.link);
    if !s.past.recreated {
      if s.past.reopened {
        CommitStaysBroken(s.link);
      } else {
        CommitKeepsOrder(s.link);
      }
    }
  }

  lemma {:induction false} SameOrderInv(s: Runtime, t: Runtime)
    requires OrderInv(s) && t.link == s.link && t.turn == s.turn && t.frames == s.frames
    requires t.past.unmuted == s.past.unmuted && t.past.reopened == s.past.reopened
    requires t.past.recreated == s.past.recreated
    ensures OrderInv(t)
  {
  }

  /** The commit of a recording whose microphone is stopped. */
  lemma {:induction false} CommitKeeps(s: Runtime, now: nat)
    requires LinkInv(s) && CompletionsInv(s) && OrderInv(s) && Settled(s) && Failable(s)
    requires s.turn == RecordingAndStreaming && !s.audio.microphone && !s.audio.speaker && s.frames > 0
    ensures var (link, ok) := CommitInput(s.link); var r := s.(link := link);
      && (!ok ==> var t := FailRuntime(r, now); Inv(t) && Settled(t) && InTime(t, now))
      && (ok ==>
            var t := r.(turn := WaitingResponse, timers := s.timers.(response := U32(now)),
                        past := s.past.(since := now, heard := false));
            Inv(t) && Settled(t) && InTime(t, now))
  {
    hide FailRuntime, CommitInput, Sane, OrderInv, Orderly, ProperCompletion;
    CommitKeepsLink(s.link);
    CommitOrder(s);
    var (link, ok) := CommitInput(s.link);
    var r := s.(link := link);
    if !ok {
      FailKeepsInv(r, now);
    } else {
      SameOrderInv(r.(turn := WaitingResponse),
                   r.(turn := WaitingResponse, timers := s.timers.(response := U32(now)),
                      past := s.past.(since := now, heard := false)));
    }
  }

  lemma {:induction false} FinishKeeps(s: Runtime, input: Input)
    requires Inv(s) && Settled(s) && s.turn == RecordingAndStreaming
    ensures var t := FinishRecording(s, input);
      Inv(t) && Settled(t) && InTime(t, input.now)
  {
    hide FailRuntime, CommitInput, Elapsed, CancelRecording, StopAudio, Sane, OrderInv, CompletionsInv, TimerInv;
    StopAudioKeeps(s.audio);
    var r := s.(audio := StopAudio(s.audio));
    SameOrderInv(s, r);
    SameCompletions(s, r);
    if Elapsed(input.now, s.timers.recording) < MINIMUM_RECORDING_MS || s.frames == 0 {
      CancelRecordingKeeps(r);
    } else {
      CommitKeeps(r, input.now);
    }
  }

  lemma {:induction false} SameCompletions(s: Runtime, t: Runtime)
    requires CompletionsInv(s) && t.past.completions == s.past.completions
    ensures CompletionsInv(t)
  {
    hide ProperCompletion;
  }

  /** The send that ends a full frame. */
  lemma {:induction false} AppendOrder(s: Runtime)
    requires OrderInv(s) && s.turn == RecordingAndStreaming
    requires s.link.status == Transport.Ready && s.link.socket == Transport.Up && !s.link.closing
    ensures var l := Transport.SendText(s.link, Transport.Append); var t := s.(link := l);
      && Orderly(t)
      && (Transport.Outcome(s.link) == Transport.Sent ==> OrderInv(t.(captured := 0, frames := s.frames + 1)))
  {
    hide Transport.SendText, Protocol.PhaseOf;
    SendMeans(s.link, Transport.Append);
    Protocol.PhaseOfSend(s.link.sent, Transport.Append);
  }

  lemma {:induction false} AppendKeeps(s: Runtime)
    requires Inv(s) && Settled(s) && s.turn == RecordingAndStreaming && s.link.status == Transport.Ready
    ensures var l := Transport.SendText(s.link, Transport.Append); var t := s.(link := l);
      && Failable(t) && CompletionsInv(t) && Orderly(t)
      && (Transport.Outcome(s.link) == Transport.Sent ==>
            var u := t.(captured := 0, frames := s.frames + 1); Inv(u) && Settled(u))
  {
    hide OrderInv, Orderly, Sane, ProperCompletion;
    AppendOrder(s);
  }

  lemma {:induction false} CaptureKeeps(s: Runtime, captured: nat)
    requires Inv(s) && Settled(s) && captured <= SAMPLES_PER_FRAME
    ensures var t := s.(captured := captured); Inv(t) && Settled(t)
  {
    hide Sane, ProperCompletion, InPhase;
    var t := s.(captured := captured);
    assert InPhase(s) ==> InPhase(t) by {
      SamePhase(s, t);
    }
  }

  /** A full frame that is due. */
  lemma {:induction false} FrameKeeps(s: Runtime, input: Input)
    requires Inv(s) && Settled(s) && s.turn == RecordingAndStreaming
    requires s.captured == SAMPLES_PER_FRAME && input.due
    ensures var t := StreamFrame(s, input);
      Inv(t) && Settled(t) && (InTime(s, input.now) ==> InTime(t, input.now))
  {
    hide FailRuntime, Transport.SendText, AudioInv, CompletionsInv, OrderInv, LinkInv, Settled, Failable, Orderly;
    FailsWell(s, input.now);
    if s.link.status == Transport.Ready {
      AppendKeeps(s);
      if Transport.Outcome(s.link) != Transport.Sent {
        FailKeepsInv(s.(link := Transport.SendText(s.link, Transport.Append)), input.now);
      }
    }
  }

  lemma {:induction false} StreamKeeps(s: Runtime, input: Input)
    requires Inv(s) && Settled(s) && s.turn == RecordingAndStreaming && s.audio.microphone
    ensures var t := StreamFrame(s, input);
      Inv(t) && Settled(t) && (InTime(s, input.now) ==> InTime(t, input.now))
  {
    hide FailRuntime, Transport.SendText, CompletionsInv, OrderInv, LinkInv, Settled, Sane, Fed;
    FailsWell(s, input.now);
    var bytes := Min(input.readBytes, 4 * (SAMPLES_PER_FRAME - s.captured));
    var full := s.captured == SAMPLES_PER_FRAME;
    if full || (bytes > 0 && bytes % 4 == 0) {
      var captured := if full then s.captured else s.captured + bytes / 4;
      CaptureKeeps(s, captured);
      var r := s.(captured := captured);
      if captured == SAMPLES_PER_FRAME && input.due {
        FrameKeeps(r, input);
      }
    }
  }

  lemma {:induction false} ButtonKeeps(s: Runtime, input: Input)
    requires Inv(s) && Settled(s)
    ensures var t := ServiceButton(s, input);
      Inv(t) && Settled(t) && (OnTime(s, input.now) ==> OnTime(t, input.now))
  {
    hide BeginRecording, FinishRecording;
    if s.turn == Idle {
      BeginKeeps(s, input);
    } else if s.turn == RecordingAndStreaming {
      FinishKeeps(s, input);
    }
  }

  lemma {:induction false} RecordingKeeps(s: Runtime, input: Input)
    requires Inv(s) && Settled(s)
    ensures var t := ServiceRecording(s, input);
      Inv(t) && Settled(t) && (OnTime(s, input.now) ==> InTime(t, input.now))
  {
    hide FinishRecording, StreamFrame, Elapsed, LinkInv, Settled, CompletionsInv, OrderInv, Sane, Fed;
    if s.turn == RecordingAndStreaming && s.audio.microphone {
      FinishKeeps(s, input);
      StreamKeeps(s, input);
      if Window(s, input.now) {
        ElapsedExact(input.now, s.past.since);
      }
    }
  }

  // ---------- whole runs ----------

  /** No loop may come later than this after the one before it, or millis() could hide a timeout. */
  const LONGEST_GAP_MS: nat := WRAP - 45000

  lemma {:induction false} EnvironmentKeeps(s: Runtime, prior: nat, input: Input)
    requires Inv(s) && Settled(s)
    ensures var t := Environment(s, input);
      && Inv(t) && Settled(t)
      && (InTime(s, prior) && prior <= input.now < prior + LONGEST_GAP_MS ==> Window(t, input.now))
  {
  }

  lemma {:induction false} LoopKeeps(s: Runtime, prior: nat, input: Input)
    requires Inv(s) && Settled(s)
    ensures var t := Loop(s, input);
      && Inv(t) && Settled(t)
      && (InTime(s, prior) && prior <= input.now < prior + LONGEST_GAP_MS ==> InTime(t, input.now))
  {
    hide Environment, ServiceNetwork, ServiceProvider, ServiceButton, ServiceRecording;
    hide Inv, Settled, InTime, Window, Timely, OnTime;
    EnvironmentKeeps(s, prior, input);
    var s1 := Environment(s, input);
    NetworkKeeps(s1, input);
    var s2 := ServiceNetwork(s1, input);
    ProviderKeeps(s2, input);
    var s3 := ServiceProvider(s2, input);
    ButtonKeeps(s3, input);
    RecordingKeeps(ServiceButton(s3, input), input);
  }

  lemma {:induction false} RunKeeps(boot: nat, inputs: seq<Input>)
    ensures var s := Run(boot, inputs); Inv(s) && Settled(s)
  {
    if inputs != [] {
      hide Loop, Inv, Settled;
      RunKeeps(boot, inputs[..|inputs| - 1]);
      LoopKeeps(Run(boot, inputs[..|inputs| - 1]), 0, inputs[|inputs| - 1]);
    } else {
      assert Protocol.PhaseOf([]) == Protocol.Fresh;
    }
  }

  lemma {:induction false} RunStep(boot: nat, inputs: seq<Input>, input: Input)
    ensures Run(boot, inputs + [input]) == Loop(Run(boot, inputs), input)
  {
    hide Loop;
    assert (inputs + [input])[..|inputs|] == inputs;
  }

  function TimeAfter(boot: nat, inputs: seq<Input>): nat {
    if inputs == [] then boot else inputs[|inputs| - 1].now
  }

  /** The clock never runs back, and no two loops are further apart than the longest gap. */
  predicate Ticks(boot: nat, inputs: seq<Input>) {
    forall i :: 0 <= i < |inputs| ==>
      var before := TimeAfter(boot, inputs[..i]); before <= inputs[i].now < before + LONGEST_GAP_MS
  }

  lemma {:induction false} RunInTime(boot: nat, inputs: seq<Input>)
    requires Ticks(boot, inputs)
    ensures InTime(Run(boot, inputs), TimeAfter(boot, inputs))
  {
    if inputs != [] {
      hide Loop, Inv, Settled;
      var before := inputs[..|inputs| - 1];
      assert Ticks(boot, before) by {
        forall i | 0 <= i < |before|
          ensures var at := TimeAfter(boot, before[..i]); at <= before[i].now < at + LONGEST_GAP_MS
        {
          assert before[..i] == inputs[..i] && before[i] == inputs[i];
        }
      }
      RunInTime(boot, before);
      RunKeeps(boot, before);
      LoopKeeps(Run(boot, before), TimeAfter(boot, before), inputs[|inputs| - 1]);
    }
  }
}
