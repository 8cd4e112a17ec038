/**
 How long a recording lasts. Reply audio taken during a recording stops its microphone, and serviceRecording then
 no longer looks at the clock: exactly such a recording can outlast its ten seconds.
 */
module TurnRecordings {
  import opened Common
  import opened VoiceTurn
  import opened TurnRuntime
  import opened TurnInvariant
  import opened TurnRaces
  import Transport = RealtimeTransport
  import Playback = PlaybackMachine
  import Calls = PlaybackCalls
  import Races = PlaybackRaces

  /** Loops in which nothing reaches the device: no server event, no button, no step of the playback task. */
  predicate AllQuiet(inputs: seq<Input>) {
    forall i :: 0 <= i < |inputs| ==> QuietInput(inputs[i])
  }

  predicate QuietInput(input: Input) {
    input.wifi && input.socket == Transport.Quiet && input.button == Steady && input.schedules == []
  }

  /** In a quiet loop only the recording itself is served. */
  lemma {:induction false} QuietLoop(s: Runtime, input: Input)
    requires Inv(s) && Settled(s) && s.turn == RecordingAndStreaming && QuietInput(input)
    ensures Loop(s, input) == ServiceRecording(Environment(s, input), input)
  {
    hide Loop, ServiceRecording, AudioInv, CompletionsInv, OrderInv, TimerInv;
    NothingToServe(s, input);
  }

  /** Ending or streaming a recording does not change whether it was interrupted, nor when it began. */
  predicate SameRecording(s: Runtime, t: Runtime) {
    t.past.interrupted == s.past.interrupted && (t.turn == RecordingAndStreaming ==> t.past.since == s.past.since)
  }

  lemma {:induction false} FailSame(s: Runtime, t: Runtime, now: nat)
    requires t.past.interrupted == s.past.interrupted && t.turn != Unconfigured
    ensures SameRecording(s, FailRuntime(t, now))
  {
    hide StopAudio, Transport.Close;
  }

  lemma {:induction false} FinishSame(s: Runtime, input: Input)
    requires s.turn == RecordingAndStreaming
    ensures SameRecording(s, FinishRecording(s, input))
  {
    hide FailRuntime, StopAudio, CommitInput, Transport.SendText, Elapsed;
    var r := s.(audio := StopAudio(s.audio));
    FailSame(s, r.(link := CommitInput(r.link).0), input.now);
  }

  lemma {:induction false} StreamSame(s: Runtime, input: Input)
    requires s.turn == RecordingAndStreaming && s.captured <= SAMPLES_PER_FRAME
    ensures SameRecording(s, StreamFrame(s, input))
  {
    hide FailRuntime, Transport.SendText;
    var bytes := Min(input.readBytes, 4 * (SAMPLES_PER_FRAME - s.captured));
    var r := s.(captured := if s.captured < SAMPLES_PER_FRAME then s.captured + bytes / 4 else s.captured);
    FailSame(s, s, input.now);
    FailSame(s, r, input.now);
    FailSame(s, r.(link := Transport.SendText(r.link, Transport.Append)), input.now);
  }

  lemma {:induction false} QuietKeeps(s: Runtime, input: Input)
    requires Inv(s) && Settled(s) && s.turn == RecordingAndStreaming && QuietInput(input)
    ensures var t := Loop(s, input);
      SameRecording(s, t) && (s.past.interrupted ==> t.turn == RecordingAndStreaming)
  {
    hide Loop, FinishRecording, StreamFrame, Elapsed, Inv, Settled, SameRecording;
    QuietLoop(s, input);
    var e := Environment(s, input);
    MicrophoneOf(s);
    FinishSame(e, input);
    StreamSame(e, input);
    AsBefore(s, e, Loop(s, input));
  }

  lemma {:induction false} MicrophoneOf(s: Runtime)
    requires Inv(s) && s.turn == RecordingAndStreaming
    ensures (s.audio.microphone <==> !s.past.interrupted) && s.captured <= SAMPLES_PER_FRAME
  {
    hide OrderInv, CompletionsInv, LinkInv, TimerInv, Sane;
  }

  lemma {:induction false} AsBefore(s: Runtime, e: Runtime, t: Runtime)
    requires e.past == s.past && e.turn == s.turn
    ensures SameRecording(e, t) <==> SameRecording(s, t)
    ensures SameRecording(s, e)
  {
  }

  /** Quiet loops leave alone whether a recording was interrupted, as long as it lasts. */
  lemma {:induction false} QuietRun(boot: nat, inputs: seq<Input>, more: seq<Input>)
    requires AllQuiet(more) && Run(boot, inputs).turn == RecordingAndStreaming
    requires Run(boot, inputs).past.interrupted
             || forall i :: 0 <= i <= |more| ==> Run(boot, inputs + more[..i]).turn == RecordingAndStreaming
    ensures var t := Run(boot, inputs + more);
      t.turn == RecordingAndStreaming && t.past.interrupted == Run(boot, inputs).past.interrupted
    decreases |more|
  {
    hide Run, Loop, Inv, Settled;
    if more == [] {
      assert inputs + more == inputs;
    } else {
      var before := more[..|more| - 1];
      var last := more[|more| - 1];
      assert forall i :: 0 <= i <= |before| ==> before[..i] == more[..i];
      QuietRun(boot, inputs, before);
      RunKeeps(boot, inputs + before);
      QuietKeeps(Run(boot, inputs + before), last);
      RunStep(boot, inputs + before, last);
      assert inputs + more == inputs + before + [last];
      assert more[..|more|] == more;
    }
  }

  /** Quiet loops through which the recording lasts, up to the given time. */
  ghost predicate Prolongs(boot: nat, inputs: seq<Input>, more: seq<Input>, at: nat) {
    && AllQuiet(more) && Ticks(boot, inputs + more) && TimeAfter(boot, inputs + more) >= at
    && forall i :: 0 <= i <= |more| ==> Run(boot, inputs + more[..i]).turn == RecordingAndStreaming
  }

  function Tick(now: nat): Input {
    STEADY_INPUT.(now := now)
  }

  /** That many loops, each a second after the one before it. */
  function Seconds(now: nat, n: nat): seq<Input> {
    if n == 0 then [] else Seconds(now, n - 1) + [Tick(now + 1000 * n)]
  }

  lemma {:induction false} SecondsQuiet(now: nat, n: nat)
    ensures AllQuiet(Seconds(now, n))
  {
    if n > 0 {
      SecondsQuiet(now, n - 1);
    }
  }

  lemma {:induction false} SecondsTick(boot: nat, inputs: seq<Input>, n: nat)
    requires Ticks(boot, inputs)
    ensures var now := TimeAfter(boot, inputs); var all := inputs + Seconds(now, n);
      Ticks(boot, all) && TimeAfter(boot, all) == now + 1000 * n
    decreases n
  {
    hide Ticks, Tick;
    var now := TimeAfter(boot, inputs);
    if n == 0 {
      assert inputs + Seconds(now, 0) == inputs;
    } else {
      var before := inputs + Seconds(now, n - 1);
      SecondsTick(boot, inputs, n - 1);
      TickTime(now + 1000 * n);
      NextTicks(boot, before, Tick(now + 1000 * n));
      assert inputs + Seconds(now, n) == before + [Tick(now + 1000 * n)];
    }
  }

  lemma {:induction false} TickTime(now: nat)
    ensures Tick(now).now == now
  {
  }

  lemma {:induction false} NextTicks(boot: nat, inputs: seq<Input>, input: Input)
    requires Ticks(boot, inputs)
    requires TimeAfter(boot, inputs) <= input.now < TimeAfter(boot, inputs) + LONGEST_GAP_MS
    ensures Ticks(boot, inputs + [input])
  {
    var all := inputs + [input];
    forall i | 0 <= i < |all|
      ensures var at := TimeAfter(boot, all[..i]); at <= all[i].now < at + LONGEST_GAP_MS
    {
      if i < |inputs| {
        assert all[..i] == inputs[..i];
      } else {
        assert all[..i] == inputs;
      }
    }
  }

  lemma {:induction false} InterruptedLasts(boot: nat, inputs: seq<Input>, more: seq<Input>, at: nat)
    requires AllQuiet(more) && Ticks(boot, inputs + more) && TimeAfter(boot, inputs + more) >= at
    requires var s := Run(boot, inputs); s.turn == RecordingAndStreaming && s.past.interrupted
    ensures Prolongs(boot, inputs, more, at)
  {
    hide Run;
    forall i | 0 <= i <= |more|
      ensures Run(boot, inputs + more[..i]).turn == RecordingAndStreaming
    {
      QuietRun(boot, inputs, more[..i]);
    }
  }

  /**
   With nothing more reaching the device, a recording can outlast its ten seconds, and then for any time at all,
   exactly when reply audio was taken during it.
   */
  lemma {:induction false} RecordingOverdueExactly(boot: nat, inputs: seq<Input>, at: nat)
    requires Ticks(boot, inputs) && Run(boot, inputs).turn == RecordingAndStreaming
    requires at >= Run(boot, inputs).past.since + MAXIMUM_RECORDING_MS
    ensures (exists more :: Prolongs(boot, inputs, more, at)) <==> Run(boot, inputs).past.interrupted
  {
    hide Run;
    if Run(boot, inputs).past.interrupted {
      SecondsTick(boot, inputs, at);
      SecondsQuiet(TimeAfter(boot, inputs), at);
      InterruptedLasts(boot, inputs, Seconds(TimeAfter(boot, inputs), at), at);
    } else {
      forall more | Prolongs(boot, inputs, more, at) ensures false {
        QuietRun(boot, inputs, more);
        SinceStays(boot, inputs, more);
        RunInTime(boot, inputs + more);
      }
    }
  }

  lemma {:induction false} SinceStays(boot: nat, inputs: seq<Input>, more: seq<Input>)
    requires AllQuiet(more)
    requires forall i :: 0 <= i <= |more| ==> Run(boot, inputs + more[..i]).turn == RecordingAndStreaming
    ensures Run(boot, inputs + more).past.since == Run(boot, inputs).past.since
    decreases |more|
  {
    hide Run, Loop, Inv, Settled;
    if more == [] {
      assert inputs + more == inputs;
    } else {
      var before := more[..|more| - 1];
      var last := more[|more| - 1];
      assert forall i :: 0 <= i <= |before| ==> before[..i] == more[..i];
      SinceStays(boot, inputs, before);
      RunKeeps(boot, inputs + before);
      RunStep(boot, inputs + before, last);
      assert inputs + more == inputs + before + [last];
      assert more[..|more|] == more && before[..|before|] == before;
      QuietKeeps(Run(boot, inputs + before), last);
    }
  }

  // ---------- such a recording is reached ----------

  function DeltaInput(): Input {
    Socket(Transport.Text(Transport.AudioDelta(Some(SOUND))))
  }

  /** Reply audio during a recording takes the bus from the microphone. */
  lemma {:induction false} DeltaTakesBus(s: Runtime, input: Input)
    requires s.turn == RecordingAndStreaming && s.audio.microphone && !s.audio.speaker && input.speakerStarts
    requires s.audio.schedules == [] && s.audio.player == Playback.INITIAL
    ensures var t := WriteOutputAudio(s, Some(SOUND), input);
      && t == s.(audio := t.audio, past := t.past) && t.audio.speaker && !t.audio.microphone && t.past.interrupted
      && t.audio.schedules == []
  {
    hide FailRuntime, Calls.Called;
    var a := StartSpeaker(s.audio, true);
    Calls.BeginAlone(a.player);
    Calls.EnqueueAlone(Calls.Called(a.player, Playback.BeginTurn, []), SOUND);
  }

  lemma {:induction false} DeltaHandled(s: Runtime)
    requires s.turn == RecordingAndStreaming && s.audio.microphone && !s.audio.speaker && !s.responseDone
    requires s.audio.player == Playback.INITIAL && s.link.events == []
    requires s.link.status == Transport.Ready && s.link.socket == Transport.Up
    ensures var input := DeltaInput(); var t := PollProvider(Environment(s, input), input);
      && t.turn == RecordingAndStreaming && t.audio.speaker && !t.audio.microphone && t.past.interrupted
      && t.audio.schedules == [] && t.link.status == Transport.Ready && !t.responseDone
  {
    hide FailRuntime, WriteOutputAudio;
    var input := DeltaInput();
    var e := Environment(s, input);
    var polled := e.(link := Transport.Poll(e.link, input.socket), past := NoteSession(e, input.socket));
    assert polled.link.events == [Transport.AudioDelta(Some(SOUND))];
    var popped := polled.(link := polled.link.(events := polled.link.events[1..]));
    DeltaTakesBus(popped, input);
    var t := HandleEvent(popped, Transport.AudioDelta(Some(SOUND)), input);
    assert t.link.events == [];
    assert ServiceEvents(polled, input) == ServiceEvents(t, input) == t;
  }

  lemma {:induction false} DeltaLoop(s: Runtime)
    requires s.turn == RecordingAndStreaming && s.audio.microphone && !s.audio.speaker && !s.responseDone
    requires s.audio.player == Playback.INITIAL && s.link.events == []
    requires s.link.status == Transport.Ready && s.link.socket == Transport.Up
    ensures var t := Loop(s, DeltaInput());
      t.turn == RecordingAndStreaming && t.past.interrupted && !t.audio.microphone
  {
    hide FailRuntime, PollProvider, CompleteTurn, Observe, FinishRecording, BeginRecording, StreamFrame, Elapsed;
    DeltaHandled(s);
    NothingSeen(PollProvider(Environment(s, DeltaInput()), DeltaInput()).audio);
  }

  /** A run into a recording that was interrupted. */
  lemma {:induction false} InterruptedRun() returns (inputs: seq<Input>)
    ensures var s := Run(0, inputs); s.turn == RecordingAndStreaming && s.past.interrupted
  {
    inputs := ReadyRun();
    hide Loop, Run;
    PressLoop(Run(0, inputs));
    inputs := RunOn(inputs, Press(Pressed, Transport.Sent));
    DeltaLoop(Run(0, inputs));
    inputs := RunOn(inputs, DeltaInput());
  }
}
