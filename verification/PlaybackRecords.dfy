/** What enqueue records of the queue, and when it takes all it is given. */
module PlaybackRecords {
  import opened Common
  import opened PlaybackPolicy
  import opened PlaybackMachine
  import opened PlaybackInvariant
  import opened PlaybackProgress
  import opened PlaybackCalls

  // ---------- the maximum ----------

  /** The recorded maximum is no less than the queue, but for the bytes of a send that are not observed yet. */
  ghost predicate MaximumCovers(s: State) {
    !s.h.cancelled ==>
      || s.c.pc.EnqTotal? || s.c.pc.EnqObserve?
      || |s.x.buffer| <= s.x.maximumQueued
      || ((s.c.pc.EnqLoadMaximum? || s.c.pc.EnqRaiseMaximum?) && |s.x.buffer| <= s.c.observed)
  }

  lemma {:induction false} EnqueueCovers(s: State, io: nat)
    requires InEnqueue(s.c.pc) && MaximumCovers(s) && CountInv(s)
    ensures MaximumCovers(EnqueueStep(s, io))
  {
    match s.c.pc
    case EnqSend => assert Moved(io, Sendable(s)) == 0 ==> SendStep(s, io).x == s.x;
    case EnqRaiseMaximum =>
    case EnqLoadMaximum =>
    case _ =>
  }

  lemma {:induction false} CancelCovers(s: State, io: nat)
    requires InCancel(s.c.pc) && (s.c.pc != CanActive ==> s.h.cancelled)
    ensures CancelStep(s, io).h.cancelled
  {
  }

  lemma {:induction false} BeginCovers(s: State, io: nat)
    requires InBeginTurn(s.c.pc) && s.c.pc != BegStart && MaximumCovers(s) && (s.c.pc != BegActive ==> s.h.cancelled)
    ensures MaximumCovers(BeginStep(s, io))
  {
    hide PositionOf;
  }

  lemma {:induction false} CallerCovers(s: State, io: nat)
    requires Inv(s) && MaximumCovers(s)
    ensures MaximumCovers(CallerStep(s, io))
  {
    hide CancelStep, BeginStep, EnqueueStep, TaskInv, EnqueueInv, CountInv, BeginInv, TurnInv, PaceInv;
    if InEnqueue(s.c.pc) {
      EnqueueCovers(s, io);
    } else if InCancel(s.c.pc) {
      CancelCovers(s, io);
    } else if InBeginTurn(s.c.pc) && s.c.pc != BegStart {
      BeginCovers(s, io);
    }
  }

  lemma {:induction false} StepCovers(s: State, a: Action)
    requires Inv(s) && MaximumCovers(s)
    ensures MaximumCovers(Step(s, a))
  {
    hide TaskStep, CallerStep, Inv;
    match a
    case TaskRuns(io) => TaskStepFrame(s, io);
    case CallerRuns(io) => CallerCovers(s, io);
    case Invoke(_) =>
  }

  /** After any schedule the recorded maximum is no less than what is queued, unless a send is just being recorded. */
  lemma {:induction false} MaximumCoversQueue(actions: seq<Action>)
    ensures var s := Run(actions);
      !s.h.cancelled && !AfterSend(s.c.pc) ==> |s.x.buffer| <= s.x.maximumQueued
  {
    hide Run, Step, Inv;
    RunCovers(actions);
  }

  lemma {:induction false} RunCovers(actions: seq<Action>)
    ensures MaximumCovers(Run(actions))
  {
    hide Step, Inv;
    if actions != [] {
      var n := |actions| - 1;
      RunCovers(actions[..n]);
      RunKeepsInv(actions[..n]);
      StepCovers(Run(actions[..n]), actions[n]);
    }
  }

  // ---------- room ----------

  /** The task neither ends nor fails the turn while its input is open. */
  predicate Lasting(s: State) {
    && s.x.active && !s.x.inputDone && !s.x.failed && !s.h.cancelled && !s.h.ioFailed
  }

  /** How many steps enqueue needs when everything fits. */
  function StepsToReturn(pc: CallerPc): nat {
    match pc
    case EnqActive => 10
    case EnqInputDone => 9
    case EnqLoopActive => 8
    case EnqLoopInputDone => 7
    case EnqLoopFailed => 6
    case EnqSend => 5
    case EnqTotal => 4
    case EnqObserve => 3
    case EnqLoadMaximum => 2
    case EnqRaiseMaximum => 1
    case _ => 0
  }

  /** enqueue of `pcm` is under way, with room for all of it until it is sent, or it has succeeded. */
  predicate Fitting(s: State, pcm: seq<byte>, before: seq<byte>) {
    if s.c.pc == Ready then s.c.result && s.h.accepted == before + pcm
    else
      && InEnqueue(s.c.pc) && s.c.pcm == pcm && s.h.base == before && !s.c.pc.EnqCheckFailed? && !s.c.pc.EnqMarkFailed?
      && (s.c.pc.EnqRaiseMaximum? ==> s.c.maximum == s.x.maximumQueued)
      && (AfterSend(s.c.pc) ==> s.c.sent == |pcm| && s.h.accepted == before + pcm)
      && (!AfterSend(s.c.pc) ==> s.c.sent == 0 && s.h.accepted == before && |s.x.buffer| + |pcm| <= 196608)
  }

  predicate FullSlice(a: Slice) {
    match a
    case TaskSlice(io) => io >= 1920
    case CallerSlice(io) => io >= 196608
  }

  lemma {:induction false} WaitLasts(s: State)
    requires Lasting(s) && InWait(s.t.pc)
    ensures Lasting(WaitStep(s))
  {
  }

  lemma {:induction false} ReceiveLasts(s: State, io: nat)
    requires Lasting(s) && InReceive(s.t.pc)
    ensures Lasting(ReceiveStep(s, io))
  {
  }

  lemma {:induction false} WriteLasts(s: State, io: nat)
    requires Lasting(s) && DataInv(s) && TaskInv(s) && InWrite(s.t.pc) && io >= 1920
    ensures Lasting(WriteStep(s, io))
  {
  }

  lemma {:induction false} TaskLasts(s: State, io: nat)
    requires Inv(s) && s.h.begun != Harmful && Lasting(s) && io >= 1920
    ensures Lasting(TaskStep(s, io))
  {
    hide Lasting, WaitStep, DrainStep, ReceiveStep, WriteStep, DataInv, TaskInv, ControlInv, EnqueueInv, CountInv;
    hide BeginInv, EarlyInv, DrainInv, PaceInv;
    if InWait(s.t.pc) {
      WaitLasts(s);
    } else if InWrite(s.t.pc) {
      WriteLasts(s, io);
    } else if InDrain(s.t.pc) {
      NotDraining(s);
    } else {
      ReceiveLasts(s, io);
    }
  }

  lemma {:induction false} NotDraining(s: State)
    requires DrainInv(s) && Lasting(s)
    ensures !InDrain(s.t.pc)
  {
  }

  lemma {:induction false} TaskFits(s: State, io: nat, pcm: seq<byte>, before: seq<byte>)
    requires Fitting(s, pcm, before)
    ensures Fitting(TaskStep(s, io), pcm, before) && TaskStep(s, io).c == s.c
  {
    hide TaskStep;
    TaskStepFrame(s, io);
  }

  lemma {:induction false} SendFits(s: State, io: nat, pcm: seq<byte>, before: seq<byte>)
    requires Lasting(s) && Fitting(s, pcm, before) && s.c.pc.EnqSend? && io >= 196608 && pcm != []
    ensures var t := SendStep(s, io);
      Lasting(t) && Fitting(t, pcm, before) && t.c.pc == EnqTotal && t.h.begun == s.h.begun
  {
    assert Moved(io, Sendable(s)) == |pcm|;
    assert pcm[0..|pcm|] == pcm;
  }

  lemma {:induction false} EnqueueFitsOn(s: State, io: nat, pcm: seq<byte>, before: seq<byte>)
    requires Lasting(s) && Fitting(s, pcm, before) && InEnqueue(s.c.pc) && io >= 196608 && pcm != [] && CountInv(s)
    ensures var t := EnqueueStep(s, io);
      && Lasting(t) && Fitting(t, pcm, before) && t.h.begun == s.h.begun
      && StepsToReturn(t.c.pc) < StepsToReturn(s.c.pc)
  {
    hide SendStep;
    if s.c.pc.EnqSend? {
      SendFits(s, io, pcm, before);
    }
  }

  function CallerSlicesIn(schedule: seq<Slice>): nat
    decreases |schedule|
  {
    if schedule == [] then 0 else (if schedule[0].CallerSlice? then 1 else 0) + CallerSlicesIn(schedule[1..])
  }

  /** Everything the schedule lemma needs of a state. */
  ghost predicate Taking(s: State, pcm: seq<byte>, before: seq<byte>) {
    Inv(s) && s.h.begun != Harmful && Lasting(s) && Fitting(s, pcm, before)
  }

  lemma {:induction false} CallerTakes(s: State, io: nat, pcm: seq<byte>, before: seq<byte>)
    requires Taking(s, pcm, before) && io >= 196608 && pcm != []
    ensures var t := CallerStep(s, io);
      Taking(t, pcm, before) && (s.c.pc == Ready || StepsToReturn(t.c.pc) < StepsToReturn(s.c.pc))
  {
    hide Lasting, EnqueueStep, TaskInv, ControlInv, EnqueueInv, BeginInv, TurnInv, PaceInv;
    CallerKeepsInv(s, io);
    if s.c.pc != Ready {
      EnqueueFitsOn(s, io, pcm, before);
    }
  }

  lemma {:induction false} TaskTakes(s: State, io: nat, pcm: seq<byte>, before: seq<byte>)
    requires Taking(s, pcm, before) && io >= 1920
    ensures Taking(TaskStep(s, io), pcm, before) && TaskStep(s, io).c == s.c
  {
    hide Lasting, Fitting, TaskStep, Inv;
    TaskKeepsInv(s, io);
    TaskStepFrame(s, io);
    TaskLasts(s, io);
    TaskFits(s, io, pcm, before);
  }

  lemma {:induction false} ScheduleTakes(s: State, schedule: seq<Slice>, pcm: seq<byte>, before: seq<byte>)
    requires Taking(s, pcm, before) && pcm != [] && forall i :: 0 <= i < |schedule| ==> FullSlice(schedule[i])
    ensures var t := Interleave(s, schedule);
      && Taking(t, pcm, before)
      && (t.c.pc == Ready || StepsToReturn(t.c.pc) + CallerSlicesIn(schedule) <= StepsToReturn(s.c.pc))
    decreases |schedule|
  {
    hide Taking, TaskStep, CallerStep;
    if schedule != [] {
      assert FullSlice(schedule[0]);
      match schedule[0]
      case TaskSlice(io) =>
        TaskTakes(s, io, pcm, before);
        ScheduleTakes(TaskStep(s, io), schedule[1..], pcm, before);
      case CallerSlice(io) =>
        CallerTakes(s, io, pcm, before);
        ScheduleTakes(CallerStep(s, io), schedule[1..], pcm, before);
        if s.c.pc == Ready {
          ReturnedStays(s, schedule);
        }
    }
  }

  /** A caller that has returned stays so until the next call. */
  lemma {:induction false} ReturnedStays(s: State, schedule: seq<Slice>)
    requires s.c.pc == Ready
    ensures Interleave(s, schedule).c.pc == Ready
    decreases |schedule|
  {
    hide TaskStep;
    if schedule != [] {
      match schedule[0]
      case TaskSlice(io) =>
        TaskStepFrame(s, io);
        ReturnedStays(TaskStep(s, io), schedule[1..]);
      case CallerSlice(io) => ReturnedStays(s, schedule[1..]);
    }
  }

  /**
   With room for all of it, and with transfers that move what they can, an enqueue of a turn that is taking input
   succeeds within ten steps of the caller, however the task runs meanwhile; it has accepted the input whole, and the
   turn goes on.
   */
  lemma {:induction false} EnqueueFits(s: State, pcm: seq<byte>, schedule: seq<Slice>)
    requires Inv(s) && s.c.pc == Ready && s.h.begun != Harmful && !s.h.ioFailed
    requires s.x.active && !s.x.inputDone && !s.x.failed
    requires pcm != [] && |s.x.buffer| + |pcm| <= 196608
    requires (forall i :: 0 <= i < |schedule| ==> FullSlice(schedule[i])) && CallerSlicesIn(schedule) >= 10
    ensures var t := Interleave(StartCall(s, Enqueue(pcm)), schedule);
      && t.c.pc == Ready && t.c.result && t.h.accepted == s.h.accepted + pcm
      && t.x.active && !t.x.failed
  {
    hide TaskInv, EnqueueInv, CountInv, BeginInv, TurnInv, PaceInv, Interleave;
    var u := StartCall(s, Enqueue(pcm));
    CallKeepsInv(s, Enqueue(pcm));
    ScheduleTakes(u, schedule, pcm, s.h.accepted);
  }
}
