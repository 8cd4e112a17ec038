/** The microphone's frames: each is 320 samples, and each is sent once, in the recording it was read in. */
module TurnFrames {
  import opened Common
  import opened VoiceTurn
  import opened TurnRuntime
  import opened TurnInvariant
  import opened TurnAudio
  import opened TurnReactions
  import Transport = RealtimeTransport

  // ---------- one call of serviceRecording ----------

  /** Samples read in one call: whole 32-bit words, as many as the frame has room for. */
  function SamplesRead(s: Runtime, input: Input): nat {
    if s.captured < 320 then Min(input.readBytes / 4, 320 - s.captured) else 0
  }

  /** Nothing was read, or part of a word. */
  predicate ReadFails(s: Runtime, input: Input) {
    s.captured < 320 && (input.readBytes == 0 || (input.readBytes < 4 * (320 - s.captured) && input.readBytes % 4 != 0))
  }

  /** A whole frame stands ready and its time has come. */
  predicate FrameDue(s: Runtime, input: Input) {
    s.captured + SamplesRead(s, input) == 320 && input.due
  }

  /**
   No sample is lost or sent twice: the samples read and those in hand are in the frame sent or still in hand. A frame
   is sent exactly when it is full and due, and the runtime fails exactly when a read or that send fails.
   */
  lemma {:induction false} FrameFills(s: Runtime, input: Input)
    requires Inv(s) && Settled(s) && s.turn == RecordingAndStreaming && s.audio.microphone
    ensures var t := StreamFrame(s, input);
      if ReadFails(s, input) then t.turn == Error
      else if !FrameDue(s, input) then
        t == s.(captured := s.captured + SamplesRead(s, input)) && t.captured <= 320
      else if s.link.status != Transport.Ready || Transport.Outcome(s.link) != Transport.Sent then t.turn == Error
      else
        && t.turn == s.turn && t.frames == s.frames + 1 && t.captured == 0
        && t.link.sent == s.link.sent + [Transport.Append]
  {
    hide StopAudio, Transport.Close, AudioInv, OrderInv, CompletionsInv, TimerInv;
    CapturedBounded(s);
    var room := 320 - s.captured;
    var bytes := Min(input.readBytes, 4 * room);
    assert bytes / 4 == Min(input.readBytes / 4, room);
  }

  // ---------- over a run ----------

  /** How many appends end the messages sent. */
  function Appends(sent: seq<Transport.Message>): nat {
    if sent == [] || sent[|sent| - 1] != Transport.Append then 0 else 1 + Appends(sent[..|sent| - 1])
  }

  /** The messages end in an unmute and this many appends. */
  predicate EndsIn(sent: seq<Transport.Message>, frames: nat) {
    Appends(sent) == frames < |sent| && sent[|sent| - 1 - frames] == Transport.Unmute
  }

  /** A recording on a ready session that was not announced twice has sent each of its frames since its unmute. */
  predicate FramesSent(s: Runtime) {
    s.turn == RecordingAndStreaming && s.link.status == Transport.Ready && !s.past.recreated ==>
      EndsIn(s.link.sent, s.frames)
  }

  lemma {:induction false} SendCounts(sent: seq<Transport.Message>, frames: nat)
    ensures EndsIn(sent + [Transport.Unmute], 0)
    ensures EndsIn(sent, frames) ==> EndsIn(sent + [Transport.Append], frames + 1)
  {
    assert (sent + [Transport.Append])[..|sent|] == sent;
  }

  lemma {:induction false} NetworkFrames(s: Runtime, input: Input)
    requires Inv(s) && FramesSent(s)
    ensures FramesSent(ServiceNetwork(s, input))
  {
    hide StopAudio, Transport.Close, Elapsed, AudioInv, OrderInv, CompletionsInv, TimerInv, EndsIn;
  }

  /** What handling an event leaves of a recording. */
  predicate Recording(s: Runtime, t: Runtime) {
    t.turn == RecordingAndStreaming ==>
      && s.turn == RecordingAndStreaming && t.frames == s.frames && t.past.recreated == s.past.recreated
      && t.link.status == s.link.status && t.link.sent == s.link.sent
  }

  lemma {:induction false} WriteFrames(s: Runtime, pcm: Option<seq<byte>>, input: Input)
    requires Failable(s)
    ensures Recording(s, WriteOutputAudio(s, pcm, input))
  {
    hide StopAudio, CallPlayer, ReportFailure, StartSpeaker, Sane, Transport.Close;
  }

  lemma {:induction false} EventFrames(s: Runtime, e: Transport.Event, input: Input)
    requires Failable(s)
    ensures Recording(s, HandleEvent(s, e, input))
  {
    hide StopAudio, CallPlayer, WriteOutputAudio, Sane, Transport.Close;
    match e
    case AudioDelta(pcm) => WriteFrames(s, pcm, input);
    case _ =>
  }

  lemma {:induction false} PollFrames(s: Runtime, input: Input)
    requires Inv(s) && Settled(s) && FramesSent(s)
    ensures FramesSent(PollProvider(s, input))
  {
    hide HandleEvent, Transport.Poll, Transport.OnText, OrderInv, Sane, ProperCompletion, EndsIn;
    if s.link.status != Transport.Idle {
      PollKeepsLink(s, input.socket);
      var t := s.(link := Transport.Poll(s.link, input.socket), past := NoteSession(s, input.socket));
      ReadyUnchanged(s.link, input.socket);
      if t.link.events != [] {
        OneEvent(t, input);
        EventFrames(t.(link := t.link.(events := [])), t.link.events[0], input);
      }
    }
  }

  /** A session that stays ready was sent nothing by a poll, unless it was announced again. */
  lemma {:induction false} ReadyUnchanged(l: Transport.Link, input: Transport.SocketInput)
    requires l.status == Transport.Ready ==> l.socket == Transport.Up
    requires l.events == []
    ensures var t := Transport.Poll(l, input);
      t.status == Transport.Ready && (input != Transport.Text(Transport.SessionCreated) || l.socket != Transport.Up) ==>
        l.status == Transport.Ready && t.sent == l.sent
  {
    match input
    case Text(e) =>
    case _ =>
  }

  lemma {:induction false} SuperviseFrames(s: Runtime, input: Input)
    requires s.turn != Unconfigured
    ensures Recording(s, SuperviseTurn(s, input))
  {
    hide StopAudio, Observe, Transport.Close, Elapsed;
  }

  lemma {:induction false} ProviderFrames(s: Runtime, input: Input)
    requires Inv(s) && Settled(s) && FramesSent(s)
    ensures FramesSent(ServiceProvider(s, input))
  {
    hide PollProvider, SuperviseTurn, StopAudio, Transport.Close, Elapsed, Inv, Settled, EndsIn;
    PollFrames(s, input);
    PollProviderKeeps(s, input);
    NotUnconfigured(PollProvider(s, input));
    SuperviseFrames(PollProvider(s, input), input);
  }

  lemma {:induction false} NotUnconfigured(s: Runtime)
    requires Inv(s)
    ensures s.turn != Unconfigured && s.captured <= SAMPLES_PER_FRAME && LinkInv(s)
  {
  }

  lemma {:induction false} FinishEnds(s: Runtime, input: Input)
    requires s.turn == RecordingAndStreaming
    ensures FinishRecording(s, input).turn != RecordingAndStreaming
  {
    hide StopAudio, Transport.Close, Transport.SendText, Elapsed, CommitInput;
  }

  lemma {:induction false} ButtonFrames(s: Runtime, input: Input)
    requires LinkInv(s) && FramesSent(s)
    ensures FramesSent(ServiceButton(s, input))
  {
    hide StopAudio, Transport.Close, Transport.SendText, FinishRecording, EndsIn;
    SendCounts(s.link.sent, 0);
    if s.link.status == Transport.Ready {
      SendMeans(s.link, Transport.Unmute);
    }
    if s.turn == RecordingAndStreaming {
      FinishEnds(s, input);
    }
  }

  lemma {:induction false} RecordingFrames(s: Runtime, input: Input)
    requires LinkInv(s) && s.captured <= SAMPLES_PER_FRAME && FramesSent(s)
    ensures FramesSent(ServiceRecording(s, input))
  {
    hide StopAudio, Transport.Close, Transport.SendText, FinishRecording, Elapsed, EndsIn;
    SendCounts(s.link.sent, s.frames);
    if s.link.status == Transport.Ready {
      SendMeans(s.link, Transport.Append);
    }
    if s.turn == RecordingAndStreaming {
      FinishEnds(s, input);
    }
  }

  lemma {:induction false} LoopFrames(s: Runtime, input: Input)
    requires Inv(s) && Settled(s) && FramesSent(s)
    ensures FramesSent(Loop(s, input))
  {
    hide Loop, Environment, ServiceNetwork, ServiceProvider, ServiceButton, ServiceRecording, Inv, Settled, EndsIn;
    hide LinkInv;
    var u, t := LoopFrom(s, input);
    NetworkFrames(u, input);
    ProviderFrames(t, input);
    ProviderKeeps(t, input);
    var v := ServiceProvider(t, input);
    NotUnconfigured(v);
    ButtonFrames(v, input);
    ButtonKeeps(v, input);
    NotUnconfigured(ServiceButton(v, input));
    RecordingFrames(ServiceButton(v, input), input);
  }

  /** After any run, the messages of a recording end in its unmute and one append for each frame counted. */
  lemma {:induction false} AppendsAreFrames(boot: nat, inputs: seq<Input>)
    ensures FramesSent(Run(boot, inputs))
  {
    if inputs != [] {
      hide Loop, Inv, Settled, FramesSent;
      var earlier, input := inputs[..|inputs| - 1], inputs[|inputs| - 1];
      AppendsAreFrames(boot, earlier);
      RunKeeps(boot, earlier);
      LoopFrames(Run(boot, earlier), input);
    }
  }
}
