/**
 Two schedules that show why DrainSoundness is stated as it is: a drain decided at line 160 on a
 sample older than the last send, and a turn started while the task still ends the previous one.
 */
module PlaybackRaces {
  import opened Common
  import opened PlaybackPolicy
  import opened PlaybackMachine
  import opened PlaybackInvariant

  /** `n` steps of the caller alone, every call moving as much as it can. */
  function CallerAlone(s: State, n: nat): State
    decreases n
  {
    if n == 0 then s else CallerAlone(CallerStep(s, CAPACITY_BYTES), n - 1)
  }

  /** `n` steps of the task alone. */
  function TaskAlone(s: State, n: nat): State
    decreases n
  {
    if n == 0 then s else TaskAlone(TaskStep(s, CAPACITY_BYTES), n - 1)
  }

  lemma {:induction false} After(actions: seq<Action>, a: Action) returns (next: seq<Action>)
    ensures Run(next) == Step(Run(actions), a)
  {
    next := actions + [a];
    assert next[..|next| - 1] == actions;
  }

  lemma {:induction false} AfterCaller(actions: seq<Action>, n: nat) returns (next: seq<Action>)
    ensures Run(next) == CallerAlone(Run(actions), n)
    decreases n
  {
    next := actions;
    if n > 0 {
      next := After(next, CallerRuns(CAPACITY_BYTES));
      next := AfterCaller(next, n - 1);
    }
  }

  lemma {:induction false} AfterTask(actions: seq<Action>, n: nat) returns (next: seq<Action>)
    ensures Run(next) == TaskAlone(Run(actions), n)
    decreases n
  {
    next := actions;
    if n > 0 {
      next := After(next, TaskRuns(CAPACITY_BYTES));
      next := AfterTask(next, n - 1);
    }
  }

  lemma {:induction false} CallerTwice(s: State)
    ensures CallerAlone(s, 2) == CallerStep(CallerStep(s, CAPACITY_BYTES), CAPACITY_BYTES)
  {
    hide CallerStep;
    assert CallerAlone(s, 2) == CallerAlone(CallerStep(s, CAPACITY_BYTES), 1);
  }

  lemma {:induction false} CallerThrice(s: State)
    ensures CallerAlone(s, 3)
         == CallerStep(CallerStep(CallerStep(s, CAPACITY_BYTES), CAPACITY_BYTES), CAPACITY_BYTES)
  {
    assert CallerAlone(s, 3) == CallerAlone(CallerStep(s, CAPACITY_BYTES), 2);
    assert CallerAlone(CallerStep(s, CAPACITY_BYTES), 2)
        == CallerAlone(CallerStep(CallerStep(s, CAPACITY_BYTES), CAPACITY_BYTES), 1);
  }

  // which operation the caller's step belongs to

  lemma {:induction false} InEnqueueSteps(s: State)
    requires InEnqueue(s.c.pc)
    ensures CallerStep(s, CAPACITY_BYTES) == EnqueueStep(s, CAPACITY_BYTES)
  {
    hide EnqueueStep, CancelStep, FinishStep, ActivateStep, BeginStep;
  }

  lemma {:induction false} InCancelSteps(s: State)
    requires InCancel(s.c.pc)
    ensures CallerStep(s, CAPACITY_BYTES) == CancelStep(s, CAPACITY_BYTES)
  {
    hide EnqueueStep, CancelStep, FinishStep, ActivateStep, BeginStep;
  }

  lemma {:induction false} InBeginSteps(s: State)
    requires InBeginTurn(s.c.pc) && !s.c.pc.BegStart?
    ensures CallerStep(s, CAPACITY_BYTES) == BeginStep(s, CAPACITY_BYTES)
  {
    hide EnqueueStep, CancelStep, FinishStep, ActivateStep, BeginStep;
  }

  // single steps, as values

  lemma {:induction false} CancelStepValue(s: State)
    ensures s.c.pc == CanActive ==>
      CancelStep(s, CAPACITY_BYTES)
      == CallerAt(s, CanInputDone).(x := s.x.(active := false), h := s.h.(cancelled := true))
    ensures s.c.pc == CanInputDone ==>
      CancelStep(s, CAPACITY_BYTES) == s.(c := s.c.(waits := 0, pc := CanWait), x := s.x.(inputDone := true))
    ensures s.c.pc == CanWait && !s.x.busy ==> CancelStep(s, CAPACITY_BYTES) == CallerAt(s, CanPlaying)
    ensures s.c.pc == CanPlaying ==>
      CancelStep(s, CAPACITY_BYTES) == CallerAt(s, CanDrained).(x := s.x.(playing := false))
    ensures s.c.pc == CanDrained ==>
      CancelStep(s, CAPACITY_BYTES) == CallerAt(s, CanBusy).(x := s.x.(drained := false))
    ensures s.c.pc == CanBusy ==>
      CancelStep(s, CAPACITY_BYTES) == if s.x.busy then CancelDone(s) else CallerAt(s, CanReset)
    ensures s.c.pc == CanReset ==> CancelStep(s, CAPACITY_BYTES) == CancelDone(s.(x := s.x.(buffer := [])))
  {
    hide CallerAt, CancelDone;
  }

  lemma {:induction false} BeginStepValue(s: State)
    ensures s.c.pc == BegReset ==> BeginStep(s, CAPACITY_BYTES) == CallerAt(s, BegInputDone).(x := s.x.(buffer := []))
    ensures s.c.pc == BegInputDone ==>
      BeginStep(s, CAPACITY_BYTES)
      == CallerAt(s, BegPlaying).(x := s.x.(inputDone := false), h := s.h.(found := PositionOf(s.t)))
    ensures s.c.pc == BegPlaying ==>
      BeginStep(s, CAPACITY_BYTES) == CallerAt(s, BegDrained).(x := s.x.(playing := false))
    ensures s.c.pc == BegDrained ==>
      BeginStep(s, CAPACITY_BYTES) == CallerAt(s, BegFailed).(x := s.x.(drained := false))
    ensures s.c.pc == BegFailed ==>
      BeginStep(s, CAPACITY_BYTES) == CallerAt(s, BegMaximum).(x := s.x.(failed := false))
    ensures s.c.pc == BegMaximum ==>
      BeginStep(s, CAPACITY_BYTES) == CallerAt(s, BegUnderruns).(x := s.x.(maximumQueued := 0))
    ensures s.c.pc == BegUnderruns ==> BeginStep(s, CAPACITY_BYTES) == CallerAt(s, BegTotal).(x := s.x.(underruns := 0))
  {
    hide CallerAt, Return, PositionOf;
  }

  lemma {:induction false} TaskThrice(s: State)
    ensures TaskAlone(s, 3) == TaskStep(TaskStep(TaskStep(s, CAPACITY_BYTES), CAPACITY_BYTES), CAPACITY_BYTES)
  {
    assert TaskAlone(s, 3) == TaskAlone(TaskStep(s, CAPACITY_BYTES), 2);
    assert TaskAlone(TaskStep(s, CAPACITY_BYTES), 2)
        == TaskAlone(TaskStep(TaskStep(s, CAPACITY_BYTES), CAPACITY_BYTES), 1);
  }

  // ---------- beginTurn and cancel without a busy task ----------

  lemma {:induction false} BeginCancels(s: State)
    requires s.c.pc == BegActive && !s.x.active
    ensures CallerStep(s, CAPACITY_BYTES) == s.(c := s.c.(beginning := true, pc := CanActive))
  {
    hide EnqueueStep, CancelStep, FinishStep, ActivateStep;
  }

  lemma {:induction false} BeginToWait(s: State)
    requires s.c.pc == BegActive && !s.x.active
    ensures var t := CallerAlone(s, 3);
      && t.c.pc == CanWait && t.c.beginning && t.c.waits == 0
      && t.x.busy == s.x.busy && !t.x.active && t.t == s.t
  {
    hide CallerStep, CallerAlone, CancelStep, BeginStep;
    CallerThrice(s);
    BeginCancels(s);
    var s1 := CallerStep(s, CAPACITY_BYTES);
    InCancelSteps(s1);
    CancelStepValue(s1);
    var s2 := CancelStep(s1, CAPACITY_BYTES);
    InCancelSteps(s2);
    CancelStepValue(s2);
  }

  lemma {:induction false} WaitToBusy(s: State)
    requires s.c.pc == CanWait && !s.x.busy
    ensures var t := CallerAlone(s, 3);
      t.c.pc == CanBusy && t.c.beginning == s.c.beginning && !t.x.busy && t.t == s.t && t.x.active == s.x.active
  {
    hide CallerStep, CallerAlone, CancelStep, BeginStep;
    CallerThrice(s);
    InCancelSteps(s);
    CancelStepValue(s);
    var s1 := CancelStep(s, CAPACITY_BYTES);
    InCancelSteps(s1);
    CancelStepValue(s1);
    var s2 := CancelStep(s1, CAPACITY_BYTES);
    InCancelSteps(s2);
    CancelStepValue(s2);
  }

  lemma {:induction false} BusyToDone(s: State)
    requires s.c.pc == CanBusy && s.c.beginning && !s.x.busy
    ensures var t := CallerAlone(s, 3); t.c.pc == BegInputDone && t.x.buffer == [] && t.t == s.t
  {
    hide CallerStep, CallerAlone, CancelStep, BeginStep;
    CallerThrice(s);
    InCancelSteps(s);
    CancelStepValue(s);
    var s1 := CancelStep(s, CAPACITY_BYTES);
    InCancelSteps(s1);
    CancelStepValue(s1);
    var s2 := CancelStep(s1, CAPACITY_BYTES);
    InBeginSteps(s2);
    BeginStepValue(s2);
  }

  lemma {:induction false} BeginStores(s: State)
    requires s.c.pc == BegInputDone
    ensures var t := CallerAlone(s, 3);
      && t.c.pc == BegFailed && t.t == s.t && t.x.buffer == s.x.buffer
      && !t.x.inputDone && !t.x.playing && !t.x.drained && t.h.found == PositionOf(s.t)
  {
    hide CallerStep, CallerAlone, CancelStep, BeginStep, PositionOf;
    CallerThrice(s);
    InBeginSteps(s);
    BeginStepValue(s);
    var s1 := BeginStep(s, CAPACITY_BYTES);
    InBeginSteps(s1);
    BeginStepValue(s1);
    var s2 := BeginStep(s1, CAPACITY_BYTES);
    InBeginSteps(s2);
    BeginStepValue(s2);
  }

  /** What the rest of beginTurn does not touch. */
  predicate SameTurn(s: State, t: State) {
    && t.t == s.t && t.x.buffer == s.x.buffer && t.h.found == s.h.found
    && t.x.inputDone == s.x.inputDone && t.x.playing == s.x.playing && t.x.drained == s.x.drained
  }

  lemma {:induction false} BeginResets(s: State)
    requires s.c.pc == BegFailed
    ensures var t := CallerAlone(s, 3);
      t.c.pc == BegTotal && SameTurn(s, t) && !t.x.failed && t.x.maximumQueued == 0
  {
    hide CallerStep, CallerAlone, CancelStep, BeginStep;
    CallerThrice(s);
    InBeginSteps(s);
    BeginStepValue(s);
    var s1 := BeginStep(s, CAPACITY_BYTES);
    InBeginSteps(s1);
    BeginStepValue(s1);
    var s2 := BeginStep(s1, CAPACITY_BYTES);
    InBeginSteps(s2);
    BeginStepValue(s2);
  }

  lemma {:induction false} BeginGoesLive(s: State)
    requires s.c.pc == BegTotal && !s.x.failed && s.x.maximumQueued == 0
    ensures var t := CallerAlone(s, 3);
      && t.c.pc == Ready && t.c.result && SameTurn(s, t) && t.x.active && !t.x.failed && t.x.maximumQueued == 0
      && t.h.accepted == [] && t.h.played == [] && !t.h.cancelled && t.h.begun == t.h.found
      && !t.h.ioFailed && !t.h.early
  {
    hide EnqueueStep, FinishStep, CancelStep, PositionOf;
    CallerThrice(s);
    var s1 := CallerStep(s, CAPACITY_BYTES);
    assert s1.c.pc == BegStart;
  }

  /** Up to line 47, wherever the task is outside busy_. */
  lemma {:induction false} BeginUntilOpen(actions: seq<Action>) returns (next: seq<Action>)
    requires var s := Run(actions); s.c.pc == Ready && !s.x.active && !s.x.busy
    ensures var t := Run(next); t.c.pc == BegInputDone && t.t == Run(actions).t && t.x.buffer == []
  {
    next := After(actions, Invoke(BeginTurn));
    hide Run, CallerStep, CallerAlone;
    BeginToWait(Run(next));
    next := AfterCaller(next, 3);
    WaitToBusy(Run(next));
    next := AfterCaller(next, 3);
    BusyToDone(Run(next));
    next := AfterCaller(next, 3);
  }

  /** Up to the stores of beginTurn that reset the drain flag. */
  lemma {:induction false} BeginUntilStores(actions: seq<Action>) returns (next: seq<Action>)
    requires var s := Run(actions); s.c.pc == Ready && !s.x.active && !s.x.busy
    ensures var s := Run(actions); var t := Run(next);
      && t.c.pc == BegFailed && t.t == s.t && t.x.buffer == []
      && !t.x.inputDone && !t.x.playing && !t.x.drained && t.h.found == PositionOf(s.t)
  {
    hide Run, CallerStep, CallerAlone, PositionOf;
    next := BeginUntilOpen(actions);
    BeginStores(Run(next));
    next := AfterCaller(next, 3);
  }

  /** A turn is live, nothing has been accepted in it, and no call is running. */
  predicate Fresh(s: State) {
    && s.c.pc == Ready && s.x.active && !s.x.inputDone && !s.x.failed && s.x.buffer == []
    && s.x.maximumQueued == 0 && s.h.accepted == [] && s.h.played == [] && !s.h.cancelled
  }

  lemma {:induction false} BeginAfterStores(actions: seq<Action>) returns (next: seq<Action>)
    requires var s := Run(actions); s.c.pc == BegFailed && s.x.buffer == [] && !s.x.inputDone
    ensures var t := Run(next); Fresh(t) && SameTurn(Run(actions), t) && t.h.begun == t.h.found
  {
    BeginResets(Run(actions));
    next := AfterCaller(actions, 3);
    BeginGoesLive(Run(next));
    next := AfterCaller(next, 3);
  }

  // ---------- one enqueue that the buffer takes whole ----------

  lemma {:induction false} EnqueueToLoop(s: State)
    requires s.c.pc == EnqActive && s.x.active && !s.x.inputDone
    ensures CallerAlone(s, 3) == s.(c := s.c.(pc := EnqLoopInputDone))
  {
    hide CallerStep, CallerAlone, SendStep;
    CallerThrice(s);
    InEnqueueSteps(s);
    var s1 := EnqueueStep(s, CAPACITY_BYTES);
    InEnqueueSteps(s1);
    var s2 := EnqueueStep(s1, CAPACITY_BYTES);
    InEnqueueSteps(s2);
  }

  lemma {:induction false} EnqueueToSent(s: State)
    requires s.c.pc == EnqLoopInputDone && !s.x.inputDone && !s.x.failed && s.x.buffer == []
    requires s.c.sent == 0 && 0 < |s.c.pcm| <= CAPACITY_BYTES && s.h.accepted == []
    ensures var t := CallerAlone(s, 3);
      && t.c.pc == EnqTotal && t.c.pcm == s.c.pcm && t.c.sent == |s.c.pcm| && t.t == s.t
      && t.h == s.h.(accepted := s.c.pcm, sends := t.h.sends, policy := t.h.policy)
      && t.x == s.x.(buffer := s.c.pcm)
  {
    hide CallerStep, CallerAlone;
    CallerThrice(s);
    InEnqueueSteps(s);
    var s1 := EnqueueStep(s, CAPACITY_BYTES);
    InEnqueueSteps(s1);
    var s2 := EnqueueStep(s1, CAPACITY_BYTES);
    InEnqueueSteps(s2);
  }

  lemma {:induction false} EnqueueToRaise(s: State)
    requires s.c.pc == EnqTotal && s.x.maximumQueued == 0 && s.x.buffer != []
    ensures var t := CallerAlone(s, 3);
      && t.c.pc == EnqRaiseMaximum && t.c.pcm == s.c.pcm && t.c.sent == s.c.sent && t.c.maximum == 0
      && t.t == s.t && t.h == s.h && t.x == s.x.(totalEnqueued := t.x.totalEnqueued)
  {
    hide CallerStep, CallerAlone, SendStep;
    CallerThrice(s);
    InEnqueueSteps(s);
    var s1 := EnqueueStep(s, CAPACITY_BYTES);
    InEnqueueSteps(s1);
    var s2 := EnqueueStep(s1, CAPACITY_BYTES);
    InEnqueueSteps(s2);
  }

  lemma {:induction false} EnqueueEnds(s: State)
    requires s.c.pc == EnqRaiseMaximum && s.c.sent == |s.c.pcm| && s.c.maximum == s.x.maximumQueued
    ensures var t := CallerAlone(s, 3);
      && t.c.pc == Ready && t.c.result && t.t == s.t && t.h == s.h && t.x == s.x.(maximumQueued := s.c.observed)
  {
    hide SendStep, FinishStep, CancelStep, BeginStep, ActivateStep;
    CallerThrice(s);
  }

  lemma {:induction false} EnqueueWhole(actions: seq<Action>, pcm: seq<byte>) returns (next: seq<Action>)
    requires Fresh(Run(actions)) && 0 < |pcm| <= CAPACITY_BYTES
    ensures var s := Run(actions); var t := Run(next);
      && t.c.pc == Ready && t.t == s.t && t.h.accepted == pcm
      && t.h.played == [] && t.h.begun == s.h.begun && !t.h.cancelled && t.x.buffer == pcm
      && t.x.active && !t.x.inputDone && t.x.playing == s.x.playing && t.x.drained == s.x.drained
  {
    next := After(actions, Invoke(Enqueue(pcm)));
    EnqueueToLoop(Run(next));
    next := AfterCaller(next, 3);
    EnqueueToSent(Run(next));
    next := AfterCaller(next, 3);
    EnqueueToRaise(Run(next));
    next := AfterCaller(next, 3);
    EnqueueEnds(Run(next));
    next := AfterCaller(next, 3);
  }

  lemma {:induction false} FinishRuns(s: State)
    requires s.c.pc == FinActive && s.x.active
    ensures var t := CallerAlone(s, 2);
      t.c.pc == Ready && t.x == s.x.(inputDone := true) && t.t == s.t && t.h == s.h.(policy := t.h.policy)
  {
    assert CallerAlone(s, 2) == CallerAlone(CallerStep(s, CAPACITY_BYTES), 1);
  }

  lemma {:induction false} FinishInputNow(actions: seq<Action>) returns (next: seq<Action>)
    requires var s := Run(actions); s.c.pc == Ready && s.x.active
    ensures var s := Run(actions); var t := Run(next);
      && t.c.pc == Ready && t.x == s.x.(inputDone := true) && t.t == s.t
      && t.h == s.h.(policy := t.h.policy)
  {
    next := After(actions, Invoke(FinishInput));
    FinishRuns(Run(next));
    next := AfterCaller(next, 2);
  }

  // ---------- the task around its sample ----------

  lemma {:induction false} SampleEmpty(s: State)
    requires s.t.pc == LoopHead && s.x.active && s.x.buffer == [] && !s.x.playing
    ensures var t := TaskAlone(s, 3);
      && t.t.pc == CheckStart && t.t.available == 0 && t.x == s.x && t.c == s.c
      && t.h == s.h.(mark := |s.h.accepted|, markDone := s.x.inputDone)
  {
    TaskThrice(s);
  }

  lemma {:induction false} DecideDrain(s: State)
    requires s.t.pc == CheckStart && s.t.available == 0 && s.x.inputDone
    ensures var t := TaskAlone(s, 3);
      && t.t.pc == DrainMark && t.c == s.c && t.x == s.x.(playing := false) && t.h == s.h.(early := true)
  {
    TaskThrice(s);
  }

  /** The first turn is live and its task has sampled the empty buffer. */
  lemma {:induction false} FirstTurnSampled() returns (actions: seq<Action>)
    ensures var s := Run(actions); Fresh(s) && s.h.begun == AtHead && s.t.pc == CheckStart && s.t.available == 0
  {
    actions := BeginUntilStores([]);
    actions := BeginAfterStores(actions);
    SampleEmpty(Run(actions));
    actions := AfterTask(actions, 3);
  }

  /** Any reply that fits the buffer can be reported drained without a byte of it being played. */
  lemma {:induction false} EarlyDrainRace(pcm: seq<byte>) returns (actions: seq<Action>)
    requires 0 < |pcm| <= CAPACITY_BYTES
    ensures var s := Run(actions);
      && s.h.begun == AtHead && !s.h.cancelled && s.x.drained
      && s.h.early && s.h.accepted == pcm && s.h.played == []
  {
    actions := FirstTurnSampled();
    actions := EnqueueWhole(actions, pcm);
    actions := FinishInputNow(actions);
    DecideDrain(Run(actions));
    actions := AfterTask(actions, 3);
    actions := After(actions, TaskRuns(0));
  }

  // ---------- a turn started under a task that is still ending the last one ----------

  lemma {:induction false} CancelToWait(s: State)
    requires s.c.pc == CanActive
    ensures var t := CallerAlone(s, 2);
      && t.c.pc == CanWait && t.c.beginning == s.c.beginning && t.c.waits == 0
      && t.x.busy == s.x.busy && t.t == s.t && !t.x.active
  {
    hide CallerStep, CallerAlone, CancelStep;
    CallerTwice(s);
    InCancelSteps(s);
    CancelStepValue(s);
    var s1 := CancelStep(s, CAPACITY_BYTES);
    InCancelSteps(s1);
    CancelStepValue(s1);
  }

  lemma {:induction false} CancelEnds(s: State)
    requires s.c.pc == CanBusy && !s.c.beginning && !s.x.busy
    ensures var t := CallerAlone(s, 2); t.c.pc == Ready && t.t == s.t && t.x.active == s.x.active && !t.x.busy
  {
    hide CallerStep, CallerAlone, CancelStep;
    CallerTwice(s);
    InCancelSteps(s);
    CancelStepValue(s);
    var s1 := CancelStep(s, CAPACITY_BYTES);
    InCancelSteps(s1);
    CancelStepValue(s1);
  }

  lemma {:induction false} FirstTurnDraining() returns (actions: seq<Action>)
    ensures var s := Run(actions); s.t.pc == DrainMark && s.c.pc == Ready && !s.x.busy
  {
    actions := FirstTurnSampled();
    actions := FinishInputNow(actions);
    DecideDrain(Run(actions));
    actions := AfterTask(actions, 3);
    RunKeepsInv(actions);
  }

  /** cancel beside a task outside busy_. */
  lemma {:induction false} CancelIdle(actions: seq<Action>) returns (next: seq<Action>)
    requires var s := Run(actions); s.c.pc == Ready && !s.x.busy
    ensures var t := Run(next); t.t == Run(actions).t && t.c.pc == Ready && !t.x.active && !t.x.busy
  {
    next := After(actions, Invoke(Cancel));
    hide Run, CallerStep, CallerAlone;
    CancelToWait(Run(next));
    next := AfterCaller(next, 2);
    WaitToBusy(Run(next));
    next := AfterCaller(next, 3);
    CancelEnds(Run(next));
    next := AfterCaller(next, 2);
  }

  /** A turn is cancelled while its task is about to mark the drain, which busy_ does not cover. */
  lemma {:induction false} CancelledMidDrain() returns (actions: seq<Action>)
    ensures var s := Run(actions); s.t.pc == DrainMark && s.c.pc == Ready && !s.x.active && !s.x.busy
  {
    hide Run;
    actions := FirstTurnDraining();
    actions := CancelIdle(actions);
  }

  /** Such a turn starts as drained already, whatever is then enqueued. */
  lemma {:induction false} StaleTurnRace(pcm: seq<byte>) returns (actions: seq<Action>)
    requires 0 < |pcm| <= CAPACITY_BYTES
    ensures var s := Run(actions);
      && s.h.begun == Harmful && !s.h.cancelled && s.x.drained
      && s.h.accepted == pcm && s.h.played == []
  {
    actions := CancelledMidDrain();
    actions := BeginUntilStores(actions);
    actions := After(actions, TaskRuns(0));
    actions := BeginAfterStores(actions);
    actions := EnqueueWhole(actions, pcm);
  }
}
