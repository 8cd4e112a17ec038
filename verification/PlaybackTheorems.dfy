/** What every schedule of the two playback threads guarantees, and where a guarantee stops. */
module PlaybackTheorems {
  import opened Common
  import opened PlaybackPolicy
  import opened PlaybackMachine
  import opened PlaybackInvariant

  /** No send since the sample on which the task based its drain decision. */
  predicate NothingSinceSample(s: State) {
    s.h.mark == |s.h.accepted|
  }

  /** Bytes are conserved in order until a cancel or a short write, and never invented afterwards. */
  lemma {:induction false} Conservation(actions: seq<Action>)
    requires Run(actions).h.begun != Harmful
    ensures var s := Run(actions);
      && s.h.played + InFlight(s) <= s.h.accepted
      && (!s.h.cancelled && !s.h.ioFailed ==> s.h.played + InFlight(s) + s.x.buffer == s.h.accepted)
  {
    RunKeepsInv(actions);
  }

  /**
   A drained turn has played everything it accepted exactly when the drain was not decided at line
   160 on a sample older than the last send. The two later checks are always sound, and the early one
   is sound when the input was already finished at the sample.
   */
  lemma {:induction false} DrainSoundness(actions: seq<Action>)
    requires var s := Run(actions); s.h.begun != Harmful && !s.h.cancelled && s.x.drained
    ensures var s := Run(actions);
      && (s.h.played == s.h.accepted <==> !s.h.early || NothingSinceSample(s))
      && (s.h.early && s.h.markDone ==> s.h.played == s.h.accepted)
      && s.x.inputDone && !s.h.ioFailed
  {
    RunKeepsInv(actions);
    DrainedState(Run(actions));
  }

  lemma {:induction false} DrainedState(s: State)
    requires DataInv(s) && DrainInv(s) && !s.h.cancelled && s.x.drained
    ensures s.h.accepted == s.h.played + s.x.buffer
    ensures s.h.played == s.h.accepted <==> !s.h.early || NothingSinceSample(s)
    ensures s.h.early && s.h.markDone ==> s.h.played == s.h.accepted
    ensures s.x.inputDone && !s.h.ioFailed
  {
    assert InFlight(s) == [];
    assert s.h.accepted == s.h.played + s.x.buffer;
    assert |s.h.accepted| == |s.h.played| + |s.x.buffer|;
    if s.x.buffer == [] {
      assert s.h.accepted == s.h.played;
    }
  }

  /** Every start happens when the policy would start, and underruns and maxima agree with it. */
  lemma {:induction false} RefinesPolicy(actions: seq<Action>)
    requires var s := Run(actions); s.h.begun == AtHead && !s.h.cancelled && !s.h.ioFailed
    ensures var s := Run(actions);
      && s.h.policy.queued == |s.x.buffer| + |InFlight(s)|
      && (s.t.pc == StartPlaying && !s.x.drained ==> s.h.policy.ShouldStart(12288))
      && (s.t.pc != CountUnderrun ==> s.h.policy.underruns == s.x.underruns)
      && s.x.maximumQueued <= s.h.policy.maximum
      && s.x.maximumQueued <= 196608
      && (s.x.drained && s.h.played == s.h.accepted ==> s.h.policy.Drained())
  {
    RunKeepsInv(actions);
    var s := Run(actions);
    if s.x.drained && s.h.played == s.h.accepted {
      DrainedState(s);
      assert |s.h.accepted| == |s.h.played| + |s.x.buffer|;
    }
  }

  lemma {:induction false} CallerRaisesMaximum(s: State, io: nat)
    requires s.c.pc != BegMaximum && CountInv(s)
    ensures CallerStep(s, io).x.maximumQueued >= s.x.maximumQueued
  {
    hide EnqueueStep;
    if InEnqueue(s.c.pc) {
      EnqueueRaisesMaximum(s, io);
    } else if InCancel(s.c.pc) {
    }
  }

  lemma {:induction false} EnqueueRaisesMaximum(s: State, io: nat)
    requires s.c.pc.EnqRaiseMaximum? ==> s.c.maximum < s.c.observed
    ensures EnqueueStep(s, io).x.maximumQueued >= s.x.maximumQueued
  {
    match s.c.pc
    case EnqSend =>
    case EnqRaiseMaximum =>
    case _ =>
  }

  /** The recorded maximum only grows until the next turn resets it. */
  lemma {:induction false} MaximumOnlyGrows(actions: seq<Action>, a: Action)
    requires Run(actions).c.pc != BegMaximum
    ensures Step(Run(actions), a).x.maximumQueued >= Run(actions).x.maximumQueued
  {
    hide Run, TaskStep, EnqueueStep, CancelStep, BeginStep, FinishStep;
    RunKeepsInv(actions);
    var s := Run(actions);
    match a
    case TaskRuns(io) => TaskStepFrame(s, io);
    case CallerRuns(io) => CallerRaisesMaximum(s, io);
    case Invoke(_) =>
  }

  /**
   When enqueue returns it has called send at most eight times a byte; it reports success exactly
   when the whole input was appended, and otherwise a proper prefix was.
   */
  lemma {:induction false} EnqueueResult(actions: seq<Action>, io: nat)
    requires InEnqueue(Run(actions).c.pc) && CallerStep(Run(actions), io).c.pc == Ready
    ensures var t := CallerStep(Run(actions), io);
      && t.c.sent <= |t.c.pcm|
      && t.h.sends <= 8 * |t.c.pcm|
      && t.h.accepted == t.h.base + t.c.pcm[..t.c.sent]
      && (t.c.result <==> t.c.sent == |t.c.pcm|)
      && (t.c.result ==> t.h.accepted == t.h.base + t.c.pcm)
  {
    RunKeepsInv(actions);
    EnqueueReturns(Run(actions), io);
  }

  lemma {:induction false} EnqueueReturns(s: State, io: nat)
    requires EnqueueInv(s) && InEnqueue(s.c.pc) && EnqueueStep(s, io).c.pc == Ready
    ensures var t := EnqueueStep(s, io);
      && t.h == s.h && t.c.pcm == s.c.pcm && t.c.sent == s.c.sent <= |s.c.pcm|
      && s.h.sends <= MAX_NO_PROGRESS_ATTEMPTS * |s.c.pcm|
      && (t.c.result <==> s.c.sent == |s.c.pcm|)
  {
    assert s.c.pc.EnqSend? ==> SendStep(s, io).c.pc != Ready;
  }
}
