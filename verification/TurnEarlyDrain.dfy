/**
 The early exit of the playback task seen from the turn runtime: a run from boot that completes a heard turn none
 of whose audio was played. The task samples the empty buffer just after its turn began, the reply and its end
 arrive, and line 160 then decides the drain on that sample.
 */
module TurnEarlyDrain {
  import opened Common
  import opened VoiceTurn
  import opened TurnRuntime
  import opened TurnInvariant
  import opened TurnRaces
  import Transport = RealtimeTransport
  import Playback = PlaybackMachine
  import Policy = PlaybackPolicy
  import Calls = PlaybackCalls
  import Races = PlaybackRaces

  // ---------- the player's schedule ----------

  function CallerSlices(n: nat): seq<Calls.Slice> {
    seq(n, i => Calls.CallerSlice(Policy.CAPACITY_BYTES))
  }

  function TaskSlices(n: nat): seq<Calls.Slice> {
    seq(n, i => Calls.TaskSlice(Policy.CAPACITY_BYTES))
  }

  lemma {:induction false} CallerFirst(s: Playback.State, n: nat, rest: seq<Calls.Slice>)
    ensures Calls.Interleave(s, CallerSlices(n) + rest) == Calls.Interleave(Races.CallerAlone(s, n), rest)
    decreases n
  {
    hide Playback.CallerStep, Playback.TaskStep;
    if n == 0 {
      assert CallerSlices(0) + rest == rest;
    } else {
      CallerFirst(Playback.CallerStep(s, Policy.CAPACITY_BYTES), n - 1, rest);
      assert (CallerSlices(n) + rest)[1..] == CallerSlices(n - 1) + rest;
    }
  }

  lemma {:induction false} TaskOnly(s: Playback.State, n: nat)
    ensures Calls.Interleave(s, TaskSlices(n)) == Races.TaskAlone(s, n)
    decreases n
  {
    hide Playback.CallerStep, Playback.TaskStep;
    if n > 0 {
      TaskOnly(Playback.TaskStep(s, Policy.CAPACITY_BYTES), n - 1);
      assert TaskSlices(n)[1..] == TaskSlices(n - 1);
    }
  }

  lemma {:induction false} CallerAdds(s: Playback.State, m: nat, n: nat)
    ensures Races.CallerAlone(s, m + n) == Races.CallerAlone(Races.CallerAlone(s, m), n)
    decreases m
  {
    hide Playback.CallerStep;
    if m > 0 {
      CallerAdds(Playback.CallerStep(s, Policy.CAPACITY_BYTES), m - 1, n);
    }
  }

  /** Eighteen steps take beginTurn from its entry to its return. */
  lemma {:induction false} BeginTakesEighteen(s: Playback.State)
    requires s.c.pc == Playback.BegActive && !s.x.active && !s.x.busy
    ensures var t := Races.CallerAlone(s, 18);
      Races.Fresh(t) && t.c.result && t.t == s.t && !t.x.playing && !t.x.drained
  {
    hide Playback.CallerStep, Races.CallerAlone, Playback.PositionOf;
    Races.BeginToWait(s);
    var s1 := Races.CallerAlone(s, 3);
    Races.WaitToBusy(s1);
    var s2 := Races.CallerAlone(s1, 3);
    CallerAdds(s, 3, 3);
    Races.BusyToDone(s2);
    var s3 := Races.CallerAlone(s2, 3);
    CallerAdds(s, 6, 3);
    Races.BeginStores(s3);
    var s4 := Races.CallerAlone(s3, 3);
    CallerAdds(s, 9, 3);
    Races.BeginResets(s4);
    var s5 := Races.CallerAlone(s4, 3);
    CallerAdds(s, 12, 3);
    Races.BeginGoesLive(s5);
    CallerAdds(s, 15, 3);
  }

  const BEGIN_SCHEDULE: seq<Calls.Slice> := CallerSlices(18) + TaskSlices(3)
  const DRAIN_SCHEDULE: seq<Calls.Slice> := TaskSlices(4)

  /** The turn has begun and its task has sampled the empty buffer. */
  predicate Sampled(p: Playback.State) {
    Races.Fresh(p) && p.t.pc == Playback.CheckStart && p.t.available == 0 && !p.x.drained
  }

  lemma {:induction false} BeginSampled(p: Playback.State)
    requires p.c.pc == Playback.Ready && !p.x.active && !p.x.busy && p.t.pc == Playback.LoopHead
    ensures var t := Calls.Called(p, Playback.BeginTurn, BEGIN_SCHEDULE); Sampled(t) && t.c.result
  {
    hide Playback.CallerStep, Playback.TaskStep, Races.CallerAlone, Calls.Interleave, Calls.ToReady;
    var s := Playback.CallerAt(p, Playback.BegActive);
    CallerFirst(s, 18, TaskSlices(3));
    BeginTakesEighteen(s);
    var live := Races.CallerAlone(s, 18);
    TaskOnly(live, 3);
    Races.SampleEmpty(live);
    Calls.StaysReady(Races.TaskAlone(live, 3));
  }

  lemma {:induction false} FinishAlone(p: Playback.State)
    requires p.c.pc == Playback.Ready && p.x.active
    ensures var t := Calls.Called(p, Playback.FinishInput, []);
      && t.x == p.x.(inputDone := true) && t.t == p.t && t.h == p.h.(policy := t.h.policy)
  {
    hide Playback.CallerStep, Races.CallerAlone, Calls.ToReady;
    Calls.CallAlone(p, Playback.FinishInput);
    var s := Playback.CallerAt(p, Playback.FinActive);
    Races.FinishRuns(s);
    Calls.ToReadySkips(s, 2);
    Calls.StaysReady(Races.CallerAlone(s, 2));
  }

  lemma {:induction false} DrainsEarly(p: Playback.State)
    requires p.t.pc == Playback.CheckStart && p.t.available == 0 && p.x.inputDone
    ensures var t := Calls.Interleave(p, DRAIN_SCHEDULE);
      && t.x.drained && t.x.failed == p.x.failed && t.h.early
      && t.h.played == p.h.played && t.h.accepted == p.h.accepted
  {
    hide Calls.Interleave;
    TaskOnly(p, 4);
    TaskFourth(p);
    Races.DecideDrain(p);
  }

  lemma {:induction false} TaskFourth(p: Playback.State)
    ensures Races.TaskAlone(p, 4) == Playback.TaskStep(Races.TaskAlone(p, 3), Policy.CAPACITY_BYTES)
  {
    hide Playback.TaskStep;
    Races.TaskThrice(p);
    var q := Playback.TaskStep(p, Policy.CAPACITY_BYTES);
    assert Races.TaskAlone(p, 4) == Races.TaskAlone(q, 3);
    Races.TaskThrice(q);
  }

  // ---------- the runtime's loops ----------

  /** A ready session, and no server event waiting. */
  predicate Connected(l: Transport.Link) {
    l.status == Transport.Ready && l.socket == Transport.Up && !l.closing && l.events == []
  }

  predicate Recorded(s: Runtime, frames: nat) {
    && s.turn == RecordingAndStreaming && Connected(s.link) && s.frames == frames && s.timers.recording == 0
    && s.audio.microphone && !s.audio.speaker && s.audio.player == Playback.INITIAL
    && !s.responseDone && !s.audioDone
  }

  function Later(socket: Transport.SocketInput, schedules: seq<seq<Calls.Slice>>): Input {
    STEADY_INPUT.(now := 300, socket := socket, schedules := schedules)
  }

  function FrameInput(): Input {
    STEADY_INPUT.(now := 300, due := true, outcomes := [Transport.Sent])
  }

  lemma {:induction false} FrameLoop(s: Runtime)
    requires Recorded(s, 0) && s.captured == SAMPLES_PER_FRAME
    ensures Recorded(Loop(s, FrameInput()), 1)
  {
    hide Loop, FinishRecording, FailRuntime;
    NothingToServe(s, FrameInput());
  }

  function ReleaseInput(): Input {
    STEADY_INPUT.(now := 300, button := Released, outcomes := [Transport.Sent, Transport.Sent])
  }

  /** The reply is awaited, and nothing of it has arrived. */
  predicate Awaited(s: Runtime) {
    && s.turn == WaitingResponse && Connected(s.link) && s.timers.response == 300
    && !s.audio.microphone && !s.audio.speaker && s.audio.player == Playback.INITIAL
    && !s.responseDone && !s.audioDone
  }

  lemma {:induction false} CommitsBoth(l: Transport.Link)
    requires Connected(l) && l.outcomes == [Transport.Sent, Transport.Sent]
    ensures var (c, ok) := CommitInput(l); ok && Connected(c)
  {
  }

  lemma {:induction false} ReleaseLoop(s: Runtime)
    requires Recorded(s, 1)
    ensures Awaited(Loop(s, ReleaseInput()))
  {
    hide Loop, CommitInput, StreamFrame, FailRuntime, CallPlayer;
    NothingToServe(s, ReleaseInput());
    CommitsBoth(Environment(s, ReleaseInput()).link);
  }

  /** The reply plays, has been heard, and the task still holds its sample of the empty buffer. */
  predicate Stale(s: Runtime) {
    && s.turn == Playing && Connected(s.link) && s.timers.response == 300
    && !s.audio.microphone && s.audio.speaker && !s.responseDone && s.past.heard && s.past.fed == SOUND
    && StalePlayer(s.audio.player) && s.audio.player.x.inputDone == s.audioDone
  }

  predicate StalePlayer(p: Playback.State) {
    && p.c.pc == Playback.Ready && p.t.pc == Playback.CheckStart && p.t.available == 0
    && p.x.active && !p.x.failed && !p.x.drained && p.h.accepted == SOUND && p.h.played == []
  }

  function HearInput(): Input {
    Later(Transport.Text(Transport.AudioDelta(Some(SOUND))), [BEGIN_SCHEDULE])
  }

  lemma {:induction false} Hears(s: Runtime, input: Input)
    requires Awaited(s) && input.speakerStarts && s.audio.schedules == [BEGIN_SCHEDULE]
    ensures var t := WriteOutputAudio(s, Some(SOUND), input);
      Stale(t) && t.audio.schedules == [] && !t.audioDone && t.link == s.link
  {
    hide FailRuntime, Calls.Called;
    var a := StartSpeaker(s.audio, true);
    BeginSampled(a.player);
    Calls.EnqueueAlone(Calls.Called(a.player, Playback.BeginTurn, BEGIN_SCHEDULE), SOUND);
  }

  /** One server event is polled and handled. */
  lemma {:induction false} OneEvent(s: Runtime, e: Transport.Event, input: Input) returns (popped: Runtime)
    requires Connected(s.link) && input.socket == Transport.Text(e)
    requires e.AudioDelta? || e.AudioDone? || e.ResponseDone?
    ensures popped == s.(link := s.link.(events := []))
    ensures HandleEvent(popped, e, input).link.events == [] ==>
      PollProvider(s, input) == HandleEvent(popped, e, input)
  {
    hide HandleEvent;
    var polled := s.(link := Transport.Poll(s.link, input.socket), past := NoteSession(s, input.socket));
    assert polled == s.(link := s.link.(events := [e]));
    popped := polled.(link := polled.link.(events := polled.link.events[1..]));
    var t := HandleEvent(popped, e, input);
    if t.link.events == [] {
      assert ServiceEvents(polled, input) == ServiceEvents(t, input) == t;
    }
  }

  /** What is left of a loop after the event of a playing turn that does not complete. */
  lemma {:induction false} RestOfLoop(s: Runtime, input: Input)
    requires Stale(s) && s.audio.schedules == [] && input.now == 300 && input.button == Steady
    ensures SuperviseTurn(s, input) == s && ServiceRecording(ServiceButton(s, input), input) == s
  {
    hide FailRuntime, CompleteTurn, Observe, BeginRecording, FinishRecording, StreamFrame;
    NothingSeen(s.audio);
  }

  lemma {:induction false} HearLoop(s: Runtime)
    requires Awaited(s)
    ensures var t := Loop(s, HearInput()); Stale(t) && !t.audioDone
  {
    hide FailRuntime, SuperviseTurn, ServiceRecording, ServiceButton, PollProvider, HandleEvent, WriteOutputAudio;
    hide Elapsed, Stale;
    var input := HearInput();
    var e := Environment(s, input);
    var popped := OneEvent(e, input.socket.event, input);
    HandlesDelta(popped, input);
    var t := HandleEvent(popped, input.socket.event, input);
    StaleIsPlaying(t);
    RestOfLoop(t, input);
  }

  lemma {:induction false} HandlesDelta(s: Runtime, input: Input)
    requires Awaited(s) && input.speakerStarts && s.audio.schedules == [BEGIN_SCHEDULE]
    ensures var t := HandleEvent(s, Transport.AudioDelta(Some(SOUND)), input);
      Stale(t) && t.audio.schedules == [] && !t.audioDone && t.link == s.link
  {
    hide WriteOutputAudio;
    Hears(s, input);
  }

  lemma {:induction false} StaleIsPlaying(s: Runtime)
    requires Stale(s)
    ensures s.turn == Playing && s.link.events == []
  {
  }

  lemma {:induction false} HandlesDone(s: Runtime, input: Input)
    requires Stale(s) && s.audio.schedules == []
    ensures var t := HandleEvent(s, Transport.AudioDone, input); Stale(t) && t.audioDone && t.audio.schedules == []
  {
    hide Calls.Called;
    FinishAlone(s.audio.player);
  }

  lemma {:induction false} EndLoop(s: Runtime)
    requires Stale(s)
    ensures var t := Loop(s, Later(Transport.Text(Transport.AudioDone), [])); Stale(t) && t.audioDone
  {
    hide FailRuntime, SuperviseTurn, ServiceRecording, ServiceButton, PollProvider, HandleEvent, Elapsed;
    var input := Later(Transport.Text(Transport.AudioDone), []);
    var e := Environment(s, input);
    var popped := OneEvent(e, Transport.AudioDone, input);
    HandlesDone(popped, input);
    RestOfLoop(HandleEvent(popped, Transport.AudioDone, input), input);
  }

  /** A turn was completed as heard, and nothing of its reply was played. */
  predicate CompletedUnplayed(s: Runtime) {
    && s.past.completions != []
    && var c := s.past.completions[|s.past.completions| - 1];
       c.heard && c.fed == SOUND && c.player.h.accepted == SOUND && c.player.h.played == []
  }

  lemma {:induction false} CompletesUnplayed(s: Runtime, input: Input)
    requires Stale(s.(responseDone := false)) && s.responseDone && s.audioDone && input.now == 300
    requires s.audio.schedules == [DRAIN_SCHEDULE]
    ensures var t := SuperviseTurn(s, input); CompletedUnplayed(t) && t.turn == Idle
  {
    hide FailRuntime, StopAudio, Calls.Interleave;
    DrainsEarly(s.audio.player);
    ObservedTwice(s.audio);
  }

  /** The second look finds what the first left. */
  lemma {:induction false} ObservedTwice(a: Audio)
    requires a.schedules == [DRAIN_SCHEDULE]
    ensures var b := Observe(a);
      && b == a.(player := Calls.Interleave(a.player, DRAIN_SCHEDULE), schedules := []) && Observe(b) == b
  {
    NothingSeen(Observe(a));
  }

  lemma {:induction false} LastLoop(s: Runtime)
    requires Stale(s) && s.audioDone
    ensures CompletedUnplayed(Loop(s, Later(Transport.Text(Transport.ResponseDone), [DRAIN_SCHEDULE])))
  {
    hide FailRuntime, SuperviseTurn, PollProvider, CompletedUnplayed, CompleteTurn, Elapsed;
    var input := Later(Transport.Text(Transport.ResponseDone), [DRAIN_SCHEDULE]);
    var e := Environment(s, input);
    var popped := OneEvent(e, Transport.ResponseDone, input);
    var t := HandleEvent(popped, Transport.ResponseDone, input);
    assert t == popped.(responseDone := true);
    CompletesUnplayed(t, input);
  }

  /** A run that completes a heard turn of which nothing was played. */
  lemma {:induction false} UnplayedCompletion() returns (inputs: seq<Input>)
    ensures CompletedUnplayed(Run(0, inputs))
  {
    hide Loop, Run, CompletedUnplayed;
    inputs := ReadyRun();
    PressLoop(Run(0, inputs));
    inputs := RunOn(inputs, Press(Pressed, Transport.Sent));
    FrameLoop(Run(0, inputs));
    inputs := RunOn(inputs, FrameInput());
    ReleaseLoop(Run(0, inputs));
    inputs := RunOn(inputs, ReleaseInput());
    HearLoop(Run(0, inputs));
    inputs := RunOn(inputs, HearInput());
    EndLoop(Run(0, inputs));
    inputs := RunOn(inputs, Later(Transport.Text(Transport.AudioDone), []));
    LastLoop(Run(0, inputs));
    inputs := RunOn(inputs, Later(Transport.Text(Transport.ResponseDone), [DRAIN_SCHEDULE]));
  }
}
