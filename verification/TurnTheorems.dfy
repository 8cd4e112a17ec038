/** What every run of the composed runtime guarantees. */
module TurnTheorems {
  import opened Common
  import opened VoiceTurn
  import opened TurnRuntime
  import opened TurnInvariant
  import Transport = RealtimeTransport
  import Protocol = SessionProtocol
  import Calls = PlaybackCalls

  /** The microphone and the speaker never run together, and the microphone only in a recording. */
  lemma {:induction false} HalfDuplex(boot: nat, inputs: seq<Input>)
    ensures var s := Run(boot, inputs);
      && !(s.audio.microphone && s.audio.speaker)
      && (s.audio.microphone ==> s.turn == RecordingAndStreaming)
  {
    RunKeeps(boot, inputs);
  }

  /**
   Turns complete only from waiting or playing, with the response done. If reply audio was taken after the commit,
   its end was announced, the player had drained and had accepted exactly what was fed to it; and unless its turn
   was begun over a harmful task, all of it had been played exactly when line 160 did not decide on an old sample.
   */
  lemma {:induction false} CompletionsAreProper(boot: nat, inputs: seq<Input>)
    ensures var done := Run(boot, inputs).past.completions;
      forall i :: 0 <= i < |done| ==> ProperCompletion(done[i])
  {
    hide ProperCompletion;
    RunKeeps(boot, inputs);
  }

  /**
   The messages of a connection follow the session's order, failures included, except exactly after an unmute that
   follows a lost mute; between recordings a ready connection is muted exactly when no mute was lost on it.
   */
  lemma {:induction false} OutboundOrder(boot: nat, inputs: seq<Input>)
    requires !Run(boot, inputs).past.recreated
    ensures var s := Run(boot, inputs);
      && (PhaseNow(s) == Protocol.Broken <==> s.past.reopened)
      && (s.past.reopened ==> s.past.unmuted)
      && (s.turn == Idle && s.link.status == Transport.Ready ==>
            (PhaseNow(s) == Protocol.Muted <==> !s.past.unmuted))
  {
    RunKeeps(boot, inputs);
  }

  /** Every append and every commit of an orderly connection stands in its own unmuted recording. */
  lemma {:induction false} AudioOnlyWhileUnmuted(boot: nat, inputs: seq<Input>, i: nat)
    requires var s := Run(boot, inputs); !s.past.recreated && !s.past.reopened && i < |s.link.sent|
    ensures var sent := Run(boot, inputs).link.sent;
      && (sent[i] == Transport.Append ==> exists u: nat :: u < i && Protocol.OpenSince(sent[..i], u))
      && (sent[i] == Transport.Commit ==> exists u: nat :: u + 1 < i && Protocol.OpenSince(sent[..i], u))
  {
    hide Run, Protocol.PhaseOf, Protocol.OpenSince;
    OutboundOrder(boot, inputs);
    var sent := Run(boot, inputs).link.sent;
    if sent[i] == Transport.Append {
      Protocol.AppendsFollowUnmute(sent, i);
    } else if sent[i] == Transport.Commit {
      Protocol.CommitsFollowAppend(sent, i);
    }
  }

  /** Between loops the event queue is empty, and one poll adds at most one event: it never overflows. */
  lemma {:induction false} QueueNeverFills(boot: nat, inputs: seq<Input>, socket: Transport.SocketInput)
    ensures var s := Run(boot, inputs);
      && s.link.events == []
      && (s.link.status != Transport.Idle ==> |Transport.Poll(s.link, socket).events| <= 1)
      && (s.turn == Error ==> s.link.status == Transport.Idle && s.link.socket == Transport.Down)
  {
    RunKeeps(boot, inputs);
    var s := Run(boot, inputs);
    if s.link.status != Transport.Idle {
      PollKeepsLink(s, socket);
    }
  }

  // ---------- bounded stays ----------

  /** Turn states that share one timer. */
  datatype Stay = Wifi | Clock | Provider | Recording | Reply | Failed | NoTimer

  function StayOf(t: TurnState): Stay {
    match t
    case ConnectingWifi => Wifi
    case SyncingClock => Clock
    case ConnectingProvider => Provider
    case RecordingAndStreaming => Recording
    case WaitingResponse => Reply
    case Playing => Reply
    case Error => Failed
    case _ => NoTimer
  }

  /** The same stay goes on: its timer was not started again. */
  predicate Stays(s: Runtime, t: Runtime) {
    StayOf(t.turn) == StayOf(s.turn) && (StayOf(s.turn) != NoTimer ==> t.past.since == s.past.since)
  }

  predicate NetworkMoves(s: Runtime, t: Runtime) {
    || Stays(s, t)
    || (StayOf(s.turn) == Wifi && StayOf(t.turn) == Clock)
    || (StayOf(s.turn) == Clock && StayOf(t.turn) == Provider)
    || (StayOf(s.turn) == Failed && StayOf(t.turn) == Wifi)
    || (StayOf(s.turn) != Failed && StayOf(t.turn) == Failed)
  }

  predicate ProviderMoves(s: Runtime, t: Runtime) {
    || Stays(s, t)
    || (!Offline(s.turn) && StayOf(t.turn) == Failed)
    || ((StayOf(s.turn) == Provider || StayOf(s.turn) == Reply) && StayOf(t.turn) == NoTimer)
  }

  predicate RecordingMoves(s: Runtime, t: Runtime) {
    || Stays(s, t)
    || (StayOf(s.turn) == NoTimer && StayOf(t.turn) == Recording)
    || ((StayOf(s.turn) == NoTimer || StayOf(s.turn) == Recording) && StayOf(t.turn) == Failed)
    || (StayOf(s.turn) == Recording && (StayOf(t.turn) == Reply || StayOf(t.turn) == NoTimer))
  }

  lemma {:induction false} NetworkMovesOn(s: Runtime, input: Input)
    requires s.turn != Unconfigured
    ensures NetworkMoves(s, ServiceNetwork(s, input))
  {
    hide Transport.Close, Elapsed, StopAudio;
  }

  lemma {:induction false} FailMovesOn(s: Runtime, t: Runtime, now: nat)
    requires !Offline(s.turn) && s.turn != Unconfigured && t.turn != Unconfigured
    ensures ProviderMoves(s, FailRuntime(t, now))
  {
    hide Transport.Close, StopAudio;
  }

  /** Taking audio moves the turn on from waiting to playing, and touches no timer. */
  lemma {:induction false} BeginPlaybackAside(s: Runtime, input: Input)
    ensures var (r, ok) := BeginPlayback(s, input); r == s.(audio := r.audio, past := s.past.(fed := r.past.fed))
  {
    hide StartSpeaker, CallPlayer, ReportFailure;
  }

  lemma {:induction false} EnqueueAside(s: Runtime, pcm: seq<byte>)
    ensures var (r, ok) := EnqueueAudio(s, pcm);
      r.turn == Next(s.turn, OutputAudioStarted) && r.past.since == s.past.since
  {
    hide CallPlayer, Next;
  }

  lemma {:induction false} WriteMovesOn(s: Runtime, pcm: Option<seq<byte>>, input: Input)
    requires !Offline(s.turn) && s.turn != Unconfigured
    ensures ProviderMoves(s, WriteOutputAudio(s, pcm, input))
  {
    hide FailRuntime, BeginPlayback, EnqueueAudio, ReportFailure, Offline;
    if Playable(pcm) {
      BeginPlaybackAside(s, input);
      var (begun, playing) := BeginPlayback(s, input);
      EnqueueAside(begun, pcm.value);
      var (queued, taken) := EnqueueAudio(begun, pcm.value);
      FailMovesOn(s, begun, input.now);
      FailMovesOn(s, queued, input.now);
    } else {
      FailMovesOn(s, s.(audio := ReportFailure(s.audio)), input.now);
    }
  }

  lemma {:induction false} CompleteMovesOn(s: Runtime, input: Input)
    requires !Offline(s.turn) && s.turn != Unconfigured
    ensures ProviderMoves(s, CompleteTurn(s, input))
  {
    hide FailRuntime, StopAudio;
    FailMovesOn(s, s.(audio := StopAudio(s.audio)), input.now);
  }

  lemma {:induction false} EventMovesOn(s: Runtime, e: Transport.Event, input: Input)
    requires !Offline(s.turn) && s.turn != Unconfigured
    ensures ProviderMoves(s, HandleEvent(s, e, input))
  {
    hide FailRuntime, WriteOutputAudio, CompleteTurn, CallPlayer;
    FailMovesOn(s, s, input.now);
    match e
    case AudioDelta(pcm) => WriteMovesOn(s, pcm, input);
    case ResponseDone => CompleteMovesOn(s.(responseDone := true), input);
    case _ =>
  }

  lemma {:induction false} EventsMoveOn(s: Runtime, input: Input)
    requires s.turn != Unconfigured && |s.link.events| <= 1 && (Offline(s.turn) ==> s.link.events == [])
    ensures ProviderMoves(s, ServiceEvents(s, input))
  {
    hide HandleEvent;
    if s.link.events != [] {
      var popped := s.(link := s.link.(events := s.link.events[1..]));
      EventMovesOn(popped, s.link.events[0], input);
      assert ServiceEvents(s, input) == HandleEvent(popped, s.link.events[0], input);
    }
  }

  lemma {:induction false} SuperviseMovesOn(s: Runtime, input: Input)
    requires s.turn != Unconfigured
    requires Offline(s.turn) ==> s.link.status == Transport.Idle && !s.audio.speaker
    ensures ProviderMoves(s, SuperviseTurn(s, input))
  {
    hide FailRuntime, CompleteTurn, Elapsed, Calls.Interleave, NextSchedule, LaterSchedules;
    if !Offline(s.turn) {
      var o := s.(audio := Observe(s.audio));
      FailMovesOn(s, s, input.now);
      FailMovesOn(s, o, input.now);
      CompleteMovesOn(o.(audio := Observe(o.audio)), input);
    }
  }

  lemma {:induction false} ProviderMovesOn(s: Runtime, input: Input)
    requires Inv(s) && Settled(s)
    ensures ProviderMoves(s, ServiceProvider(s, input))
  {
    hide SuperviseTurn, Transport.Poll, Transport.OnText, Transport.Close, Elapsed, ServiceEvents, OrderInv;
    hide FailRuntime, Sane, Fed, CompletionsInv, TimerInv;
    PollProviderKeeps(s, input);
    if !Offline(s.turn) {
      FailMovesOn(s, PollProvider(s, input), input.now);
    }
    var polled := if s.link.status == Transport.Idle then s
                  else s.(link := Transport.Poll(s.link, input.socket), past := NoteSession(s, input.socket));
    if s.link.status != Transport.Idle {
      PollKeepsLink(s, input.socket);
    }
    EventsMoveOn(polled, input);
    SuperviseMovesOn(PollProvider(s, input), input);
  }

  lemma {:induction false} ButtonMovesOn(s: Runtime, input: Input)
    requires s.turn != Unconfigured
    ensures var t := ServiceButton(s, input);
      && RecordingMoves(s, t)
      && (s.turn != RecordingAndStreaming && t.turn == RecordingAndStreaming ==> t.timers.recording == U32(input.now))
  {
    hide Transport.Close, Transport.SendText, CommitInput, Elapsed, StopAudio, StartMicrophone;
  }

  lemma {:induction false} RecordingMovesOn(s: Runtime, input: Input)
    requires s.turn != Unconfigured
    ensures var t := ServiceRecording(s, input);
      && RecordingMoves(s, t)
      && (s.turn != RecordingAndStreaming ==> t == s)
      && (s.timers.recording == U32(input.now) ==> Stays(s, t) || StayOf(t.turn) == Failed)
  {
    hide Transport.Close, Transport.SendText, CommitInput, Elapsed, StopAudio;
    ElapsedExact(input.now, input.now);
  }

  /** A loop that ends in the stay it began in did not start its timer again. */
  lemma {:induction false} LoopKeepsTimer(s: Runtime, input: Input)
    requires Inv(s) && Settled(s) && StayOf(Loop(s, input).turn) == StayOf(s.turn)
    ensures Stays(s, Loop(s, input))
  {
    hide ServiceNetwork, ServiceProvider, ServiceButton, ServiceRecording, Settled, OrderInv, AudioInv, TimerInv;
    hide CompletionsInv, Window, Timely, OnTime, InTime;
    EnvironmentKeeps(s, 0, input);
    var s1 := Environment(s, input);
    NetworkKeeps(s1, input);
    NetworkMovesOn(s1, input);
    var s2 := ServiceNetwork(s1, input);
    ProviderKeeps(s2, input);
    ProviderMovesOn(s2, input);
    var s3 := ServiceProvider(s2, input);
    ButtonKeeps(s3, input);
    ButtonMovesOn(s3, input);
    var s4 := ServiceButton(s3, input);
    RecordingMovesOn(s4, input);
  }

  /** The run after its first `k` loops. */
  function At(boot: nat, inputs: seq<Input>, k: nat): Runtime
    requires k <= |inputs|
  {
    Run(boot, inputs[..k])
  }

  /** From loop i to loop j the runtime is in one stay at the end of every loop. */
  predicate StaysThrough(boot: nat, inputs: seq<Input>, i: nat, j: nat)
    decreases j
  {
    && i <= j <= |inputs|
    && (i < j ==>
          && StaysThrough(boot, inputs, i, j - 1)
          && StayOf(At(boot, inputs, j).turn) == StayOf(At(boot, inputs, j - 1).turn))
  }

  lemma {:induction false} AtStep(boot: nat, inputs: seq<Input>, k: nat)
    requires 0 < k <= |inputs|
    ensures At(boot, inputs, k) == Loop(At(boot, inputs, k - 1), inputs[k - 1])
  {
    hide Loop;
    assert inputs[..k][..k - 1] == inputs[..k - 1];
  }

  lemma {:induction false} AtKeeps(boot: nat, inputs: seq<Input>, k: nat)
    requires k <= |inputs|
    ensures Inv(At(boot, inputs, k)) && Settled(At(boot, inputs, k))
  {
    hide Inv, Settled;
    RunKeeps(boot, inputs[..k]);
  }

  lemma {:induction false} TimerRunsOn(boot: nat, inputs: seq<Input>, i: nat, j: nat)
    requires StaysThrough(boot, inputs, i, j) && StayOf(At(boot, inputs, i).turn) != NoTimer
    ensures Stays(At(boot, inputs, i), At(boot, inputs, j))
    decreases j
  {
    hide At, Loop, Inv, Settled, StayOf;
    if i < j {
      TimerRunsOn(boot, inputs, i, j - 1);
      AtStep(boot, inputs, j);
      AtKeeps(boot, inputs, j - 1);
      LoopKeepsTimer(At(boot, inputs, j - 1), inputs[j - 1]);
    }
  }

  lemma {:induction false} TicksPrefix(boot: nat, inputs: seq<Input>, k: nat)
    requires Ticks(boot, inputs) && k <= |inputs|
    ensures Ticks(boot, inputs[..k])
  {
    forall i | 0 <= i < k
      ensures var at := TimeAfter(boot, inputs[..k][..i]); at <= inputs[..k][i].now < at + LONGEST_GAP_MS
    {
      assert inputs[..k][..i] == inputs[..i];
    }
  }

  lemma {:induction false} TimedHasTimer(s: Runtime)
    requires Inv(s) && Timed(s)
    ensures StayOf(s.turn) != NoTimer
  {
    hide AudioInv, CompletionsInv, OrderInv, TimerInv;
  }

  lemma {:induction false} SameLimit(s: Runtime, t: Runtime)
    requires Stays(s, t) && StayOf(s.turn) != NoTimer
    ensures LimitOf(t.turn) == LimitOf(s.turn) && t.past.since == s.past.since
  {
  }

  /**
   No timed stay lasts its limit or longer from one loop end to another, across any wrap of millis():
   15 s for Wi-Fi, 20 s for the clock and the provider, 45 s for a reply, 5 s in error, 10 s for a
   recording that no reply audio interrupts. So each is left within its limit and one loop gap.
   */
  lemma {:induction false} BoundedStay(boot: nat, inputs: seq<Input>, i: nat, j: nat)
    requires Ticks(boot, inputs) && StaysThrough(boot, inputs, i, j)
    requires Timed(At(boot, inputs, i)) && Timed(At(boot, inputs, j))
    ensures TimeAfter(boot, inputs[..j]) < TimeAfter(boot, inputs[..i]) + LimitOf(At(boot, inputs, i).turn)
  {
    hide Run, Inv, Settled, Stays, StayOf, Ticks, TimeAfter, Timed;
    AtKeeps(boot, inputs, i);
    TimedHasTimer(At(boot, inputs, i));
    TimerRunsOn(boot, inputs, i, j);
    SameLimit(At(boot, inputs, i), At(boot, inputs, j));
    TicksPrefix(boot, inputs, i);
    TicksPrefix(boot, inputs, j);
    RunInTime(boot, inputs[..i]);
    RunInTime(boot, inputs[..j]);
  }
}
