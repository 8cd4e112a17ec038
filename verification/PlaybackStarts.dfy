/**
 From which positions of the task a new turn is safe. Line 47 opens the turn's input; what the task is in the
 middle of then may still reach into the turn. The turn keeps its promises in every continuation exactly when
 that position is not a harmful one.
 */
module PlaybackStarts {
  import opened Common
  import opened PlaybackPolicy
  import opened PlaybackMachine
  import opened PlaybackInvariant
  import opened PlaybackRaces

  /** No later turn is begun. */
  predicate NoBegin(actions: seq<Action>) {
    forall i :: 0 <= i < |actions| ==> actions[i] != Invoke(BeginTurn)
  }

  /**
   What a live turn promises: it plays a prefix of its own bytes and loses none before a short write, drains only
   after its input is finished and then has played everything unless line 160 decided on an old sample, and ends
   for no other reason.
   */
  predicate Sound(s: State) {
    !s.h.cancelled ==>
      && s.h.played + InFlight(s) <= s.h.accepted
      && (!s.h.ioFailed ==> Intact(s))
      && (s.x.drained ==> s.x.inputDone && (s.h.played == s.h.accepted <==> !s.h.early || s.h.mark == |s.h.accepted|))
      && (!s.x.active ==> s.x.drained || s.h.ioFailed)
  }

  // ---------- harmless positions ----------

  /** The caller is beginning no turn, or one whose task was found harmless; the current one was begun so. */
  ghost predicate SoundlyBegun(s: State) {
    && Inv(s)
    && if InBegin(s.c.pc) then s.c.pc != BegInputDone && s.h.found != Harmful
       else s.h.begun != Harmful && !InBeginTurn(s.c.pc) && (InCancel(s.c.pc) ==> !s.c.beginning)
  }

  lemma {:induction false} TurnIsSound(s: State)
    requires TurnInv(s)
    ensures Sound(s)
  {
    if !s.h.cancelled && s.x.drained {
      assert InFlight(s) == [];
      assert s.h.accepted == s.h.played + s.x.buffer;
      assert |s.h.accepted| == |s.h.played| + |s.x.buffer|;
      if s.x.buffer == [] {
        assert s.h.accepted == s.h.played;
      }
    }
  }

  lemma {:induction false} SoundlyBegunIsSound(s: State)
    requires SoundlyBegun(s)
    ensures Sound(s)
  {
    hide TurnInv;
    if !InBegin(s.c.pc) {
      TurnIsSound(s);
    }
  }

  /** Outside beginTurn the caller never enters it. */
  predicate KeepsOut(s: State, t: State) {
    && t.h.begun == s.h.begun && !InBeginTurn(t.c.pc)
    && (InCancel(t.c.pc) ==> !t.c.beginning)
  }

  lemma {:induction false} CancelKeepsOut(s: State, io: nat)
    requires (InCancel(s.c.pc) && !s.c.beginning) || s.c.pc.FinActive? || s.c.pc.FinStore?
    ensures InCancel(s.c.pc) ==> KeepsOut(s, CancelStep(s, io))
    ensures !InCancel(s.c.pc) ==> KeepsOut(s, FinishStep(s))
  {
  }

  lemma {:induction false} EnqueueKeepsOut(s: State, io: nat)
    requires InEnqueue(s.c.pc)
    ensures KeepsOut(s, EnqueueStep(s, io))
  {
    if s.c.pc.EnqSend? {
    } else {
      EnqueueQuiet(s, io);
    }
  }

  /** The rest of beginTurn leads to the turn it opened. */
  lemma {:induction false} BeginStaysSound(s: State, io: nat)
    requires InBegin(s.c.pc) && s.c.pc != BegInputDone
    ensures s.c.pc == BegStart ==> ActivateStep(s).h.begun == s.h.found && ActivateStep(s).c.pc == Ready
    ensures s.c.pc != BegStart ==>
      var t := BeginStep(s, io); InBegin(t.c.pc) && t.c.pc != BegInputDone && t.h.found == s.h.found
  {
  }

  lemma {:induction false} CallerStaysSound(s: State, io: nat)
    requires SoundlyBegun(s)
    ensures SoundlyBegun(CallerStep(s, io))
  {
    hide Inv, EnqueueStep, CancelStep, FinishStep, BeginStep, ActivateStep;
    CallerKeepsInv(s, io);
    if InEnqueue(s.c.pc) {
      EnqueueKeepsOut(s, io);
    } else if InCancel(s.c.pc) || s.c.pc.FinActive? || s.c.pc.FinStore? {
      CancelKeepsOut(s, io);
    } else if InBegin(s.c.pc) {
      BeginStaysSound(s, io);
    }
  }

  lemma {:induction false} TaskStaysSound(s: State, io: nat)
    requires SoundlyBegun(s)
    ensures SoundlyBegun(TaskStep(s, io))
  {
    hide Inv, TaskStep;
    TaskKeepsInv(s, io);
    TaskStepFrame(s, io);
  }

  lemma {:induction false} CallStaysSound(s: State, call: Call)
    requires SoundlyBegun(s) && call != BeginTurn
    ensures SoundlyBegun(StartCall(s, call))
  {
    hide Inv;
    CallKeepsInv(s, call);
  }

  lemma {:induction false} ContinuesSoundly(s: State, actions: seq<Action>)
    requires SoundlyBegun(s) && NoBegin(actions)
    ensures Sound(Continue(s, actions))
    decreases |actions|
  {
    hide SoundlyBegun, Sound, TaskStep, CallerStep, StartCall;
    if actions == [] {
      SoundlyBegunIsSound(s);
    } else {
      match actions[0] {
        case TaskRuns(io) => TaskStaysSound(s, io);
        case CallerRuns(io) => CallerStaysSound(s, io);
        case Invoke(call) => CallStaysSound(s, call);
      }
      ContinuesSoundly(Step(s, actions[0]), actions[1..]);
    }
  }

  lemma {:induction false} OpensSoundly(s: State, io: nat)
    requires Inv(s) && s.c.pc == BegInputDone && PositionOf(s.t) != Harmful
    ensures SoundlyBegun(CallerStep(s, io))
  {
    hide Inv, PositionOf;
    CallerKeepsInv(s, io);
  }

  // ---------- harmful positions ----------

  lemma {:induction false} CallerContinues(s: State, n: nat) returns (actions: seq<Action>)
    ensures NoBegin(actions) && Continue(s, actions) == CallerAlone(s, n)
    decreases n
  {
    hide CallerStep;
    actions := [];
    if n > 0 {
      var rest := CallerContinues(CallerStep(s, CAPACITY_BYTES), n - 1);
      actions := [CallerRuns(CAPACITY_BYTES)] + rest;
      assert actions[1..] == rest;
    }
  }

  lemma {:induction false} TaskContinues(s: State, n: nat) returns (actions: seq<Action>)
    ensures NoBegin(actions) && Continue(s, actions) == TaskAlone(s, n)
    decreases n
  {
    hide TaskStep;
    actions := [];
    if n > 0 {
      var rest := TaskContinues(TaskStep(s, CAPACITY_BYTES), n - 1);
      actions := [TaskRuns(CAPACITY_BYTES)] + rest;
      assert actions[1..] == rest;
    }
  }

  lemma {:induction false} ContinueTwice(s: State, x: seq<Action>, y: seq<Action>)
    ensures Continue(s, x + y) == Continue(Continue(s, x), y)
    decreases |x|
  {
    hide Step;
    if x == [] {
      assert x + y == y;
    } else {
      assert (x + y)[1..] == x[1..] + y;
      ContinueTwice(Step(s, x[0]), x[1..], y);
    }
  }

  lemma {:induction false} OpenStep(s: State, io: nat)
    requires s.c.pc == BegInputDone
    ensures CallerAlone(s, 3) == CallerAlone(CallerStep(s, io), 2)
  {
    hide CallerAlone;
    assert CallerStep(s, io) == CallerStep(s, CAPACITY_BYTES);
    FirstOfThree(s);
  }

  lemma {:induction false} FirstOfThree(s: State)
    ensures CallerAlone(s, 3) == CallerAlone(CallerStep(s, CAPACITY_BYTES), 2)
  {
    hide CallerStep;
  }

  /** A turn is live with nothing in it yet and the task where it was. */
  predicate LiveOver(s: State, t: Task) {
    && s.t == t && s.x.active && !s.x.inputDone && !s.x.drained && s.x.buffer == []
    && s.h.accepted == [] && s.h.played == [] && !s.h.cancelled && !s.h.ioFailed && !s.h.early
  }

  /** The turn goes live with the task still where line 47 found it. */
  lemma {:induction false} GoesLive(s: State, io: nat) returns (actions: seq<Action>)
    requires s.c.pc == BegInputDone && s.x.buffer == []
    ensures NoBegin(actions) && LiveOver(Continue(CallerStep(s, io), actions), s.t)
  {
    hide CallerAlone, CallerStep, Continue;
    var start := CallerStep(s, io);
    OpenStep(s, io);
    BeginStores(s);
    var a := CallerContinues(start, 2);
    var stored := CallerAlone(s, 3);
    BeginResets(stored);
    var b := CallerContinues(stored, 3);
    var reset := CallerAlone(stored, 3);
    BeginGoesLive(reset);
    var c := CallerContinues(reset, 3);
    ContinueTwice(start, a, b);
    ContinueTwice(start, a + b, c);
    actions := a + b + c;
  }

  /** How many steps of the task do the harm. */
  function StepsToHarm(t: Task): nat {
    match t.pc
    case StarvedEmpty => 3
    case AfterWriteEmpty => 3
    case DrainStopPlaying => 2
    case DrainMark => 1
    case DrainDeactivate => 1
    case ClearBusy => 3
    case FailFlag => 2
    case FailDeactivate => 1
    case _ => 0
  }

  /** A drain decided for the earlier turn ends the new one with its input open. */
  lemma {:induction false} DrainHarms(s: State)
    requires LiveOver(s, s.t) && (InDrain(s.t.pc) || s.t.pc.StarvedEmpty? || s.t.pc.AfterWriteEmpty?)
    ensures !Sound(TaskAlone(s, StepsToHarm(s.t)))
  {
    hide InFlight, Intact;
    if s.t.pc.StarvedEmpty? || s.t.pc.AfterWriteEmpty? {
      TaskThrice(s);
    } else if s.t.pc.DrainStopPlaying? {
      assert TaskAlone(s, 2) == TaskAlone(TaskStep(s, CAPACITY_BYTES), 1);
    }
  }

  /** A short write of the earlier turn fails the new one. */
  lemma {:induction false} FailureHarms(s: State)
    requires LiveOver(s, s.t) && PositionOf(s.t) == Harmful
    requires s.t.pc.ClearBusy? || s.t.pc.FailFlag? || s.t.pc.FailDeactivate?
    ensures !Sound(TaskAlone(s, StepsToHarm(s.t)))
  {
    hide InFlight, Intact;
    if s.t.pc.ClearBusy? {
      TaskThrice(s);
    } else if s.t.pc.FailFlag? {
      assert TaskAlone(s, 2) == TaskAlone(TaskStep(s, CAPACITY_BYTES), 1);
    }
  }

  lemma {:induction false} TaskHarms(s: State)
    requires LiveOver(s, s.t) && PositionOf(s.t) == Harmful && (s.t.pc.Write? ==> s.t.chunk != [])
    ensures !Sound(TaskAlone(s, StepsToHarm(s.t)))
  {
    hide TaskStep;
    if s.t.pc.Write? || s.t.pc.CheckActive? {
      // the chunk in hand is none of the new turn's bytes
      assert TaskAlone(s, 0) == s && InFlight(s) == s.t.chunk;
      assert s.h.played + s.t.chunk == s.t.chunk;
    } else if s.t.pc.ClearBusy? || s.t.pc.FailFlag? || s.t.pc.FailDeactivate? {
      FailureHarms(s);
    } else {
      DrainHarms(s);
    }
  }

  lemma {:induction false} HarmfulStart(s: State, io: nat) returns (actions: seq<Action>)
    requires Inv(s) && s.c.pc == BegInputDone && PositionOf(s.t) == Harmful
    ensures NoBegin(actions) && !Sound(Continue(CallerStep(s, io), actions))
  {
    hide Sound, PositionOf, CallerStep, StepsToHarm;
    var live := GoesLive(s, io);
    var t := Continue(CallerStep(s, io), live);
    TaskHarms(t);
    var harm := TaskContinues(t, StepsToHarm(t.t));
    ContinueTwice(CallerStep(s, io), live, harm);
    actions := live + harm;
  }

  /** A turn is sound whatever happens before the next one exactly when line 47 finds the task harmless. */
  lemma {:induction false} StartsSoundlyExactly(s: State, io: nat)
    requires Inv(s) && s.c.pc == BegInputDone
    ensures (forall actions :: NoBegin(actions) ==> Sound(Continue(CallerStep(s, io), actions)))
            <==> PositionOf(s.t) != Harmful
  {
    hide Inv, Sound, PositionOf, CallerStep, NoBegin;
    if PositionOf(s.t) != Harmful {
      OpensSoundly(s, io);
      forall actions | NoBegin(actions) ensures Sound(Continue(CallerStep(s, io), actions)) {
        ContinuesSoundly(CallerStep(s, io), actions);
      }
    } else {
      var actions := HarmfulStart(s, io);
    }
  }

  // ---------- each kind of harmful position is reached ----------

  lemma {:induction false} FirstTurn() returns (actions: seq<Action>)
    ensures var s := Run(actions); Fresh(s) && s.t.pc == LoopHead && !s.x.playing
  {
    actions := BeginUntilStores([]);
    actions := BeginAfterStores(actions);
  }

  lemma {:induction false} TaskToCheckStart(s: State)
    requires s.t.pc == LoopHead && s.x.active && !s.x.playing && |s.x.buffer| < START_WATERMARK_BYTES
    ensures var t := TaskAlone(s, 3);
      t.x == s.x && t.c == s.c && t.t.available == |s.x.buffer| && t.t.pc.CheckStart?
  {
    TaskThrice(s);
  }

  lemma {:induction false} TaskToReceive(s: State)
    requires s.t.pc == CheckStart && s.t.available > 0 && s.x.inputDone
    ensures var t := TaskAlone(s, 3); t.x == s.x.(playing := true, busy := true) && t.c == s.c && t.t.pc == Receive
  {
    TaskThrice(s);
  }

  lemma {:induction false} TaskToWrite(s: State)
    requires s.t.pc == Receive && s.x.active && s.x.buffer != []
    ensures var t := TaskAlone(s, 2);
      t.c == s.c && t.t.pc == Write && t.t.chunk != [] && t.x == s.x.(buffer := t.x.buffer)
  {
    assert TaskAlone(s, 2) == TaskAlone(TaskStep(s, CAPACITY_BYTES), 1);
    assert TaskAlone(TaskStep(s, CAPACITY_BYTES), 1) == TaskStep(TaskStep(s, CAPACITY_BYTES), CAPACITY_BYTES);
  }

  /** The task has taken the first chunk of a reply. */
  lemma {:induction false} FirstChunkTaken(pcm: seq<byte>) returns (actions: seq<Action>)
    requires 0 < |pcm| <= WRITE_CHUNK_BYTES
    ensures var s := Run(actions); s.t.pc == Write && s.t.chunk != [] && s.c.pc == Ready
  {
    hide Run, TaskAlone, TaskStep;
    actions := FirstTurn();
    actions := EnqueueWhole(actions, pcm);
    actions := FinishInputNow(actions);
    TaskToCheckStart(Run(actions));
    actions := AfterTask(actions, 3);
    TaskToReceive(Run(actions));
    actions := AfterTask(actions, 3);
    TaskToWrite(Run(actions));
    actions := AfterTask(actions, 2);
  }

  /** cancel gives up waiting for a busy task after 150 looks. */
  lemma {:induction false} WaitsOut(s: State)
    requires s.c.pc == CanWait && s.x.busy && s.c.waits <= 150
    ensures var t := CallerAlone(s, 151 - s.c.waits);
      t.c.pc == CanPlaying && t.c.beginning == s.c.beginning && t.x == s.x && t.t == s.t
    decreases 150 - s.c.waits
  {
    hide EnqueueStep, FinishStep, ActivateStep;
    var next := CallerStep(s, CAPACITY_BYTES);
    if s.c.waits < 150 {
      WaitsOut(next);
    } else {
      assert CallerAlone(next, 0) == next;
    }
  }

  /** Then it leaves the buffer as it is. */
  lemma {:induction false} LeavesBusy(s: State)
    requires s.c.pc == CanPlaying && s.x.busy
    ensures var t := CallerAlone(s, 3);
      && t.c.pc == (if s.c.beginning then BegReset else Ready)
      && t.t == s.t && t.x.active == s.x.active && t.x.busy
  {
    hide CallerStep, CallerAlone, CancelStep, BeginStep;
    CallerThrice(s);
    InCancelSteps(s);
    CancelStepValue(s);
    var s1 := CancelStep(s, CAPACITY_BYTES);
    InCancelSteps(s1);
    CancelStepValue(s1);
    var s2 := CancelStep(s1, CAPACITY_BYTES);
    InCancelSteps(s2);
    CancelStepValue(s2);
  }

  lemma {:induction false} CancelBusy(actions: seq<Action>) returns (next: seq<Action>)
    requires var s := Run(actions); s.c.pc == CanWait && s.x.busy && s.c.waits == 0
    ensures var s := Run(actions); var t := Run(next);
      && t.c.pc == (if s.c.beginning then BegReset else Ready)
      && t.t == s.t && t.x.active == s.x.active && t.x.busy
  {
    hide Run, CallerStep, CallerAlone;
    WaitsOut(Run(actions));
    next := AfterCaller(actions, 151);
    LeavesBusy(Run(next));
    next := AfterCaller(next, 3);
  }

  lemma {:induction false} CancelledMidWrite(pcm: seq<byte>) returns (actions: seq<Action>)
    requires 0 < |pcm| <= WRITE_CHUNK_BYTES
    ensures var s := Run(actions); s.c.pc == Ready && s.t.pc == Write && !s.x.active && s.x.busy
  {
    hide CallerStep, CallerAlone, TaskStep, Run;
    actions := FirstChunkTaken(pcm);
    WritesBusy(actions);
    actions := After(actions, Invoke(Cancel));
    CancelToWait(Run(actions));
    actions := AfterCaller(actions, 2);
    actions := CancelBusy(actions);
  }

  lemma {:induction false} WritesBusy(actions: seq<Action>)
    requires Run(actions).t.pc == Write
    ensures Run(actions).x.busy
  {
    hide Run, ControlInv, EnqueueInv, CountInv, BeginInv, TurnInv, PaceInv;
    RunKeepsInv(actions);
  }

  /** A turn is opened over a task that is writing a chunk of the one before. */
  lemma {:induction false} OpensOverWrite(pcm: seq<byte>) returns (actions: seq<Action>)
    requires 0 < |pcm| <= WRITE_CHUNK_BYTES
    ensures var s := Run(actions); s.c.pc == BegInputDone && s.t.pc == Write && PositionOf(s.t) == Harmful
  {
    hide CallerStep, CallerAlone, TaskStep, Run, Inv;
    actions := CancelledMidWrite(pcm);
    actions := After(actions, Invoke(BeginTurn));
    BeginToWait(Run(actions));
    actions := AfterCaller(actions, 3);
    actions := CancelBusy(actions);
    actions := OpenAfterReset(actions);
  }

  lemma {:induction false} OpenAfterReset(actions: seq<Action>) returns (next: seq<Action>)
    requires Run(actions).c.pc == BegReset
    ensures Run(next).c.pc == BegInputDone && Run(next).t == Run(actions).t
  {
    hide Run;
    next := After(actions, CallerRuns(1));
  }

  /** The task has just failed a turn whose chunk was cut short. */
  lemma {:induction false} FirstTurnFailing(pcm: seq<byte>) returns (actions: seq<Action>)
    requires 0 < |pcm| <= WRITE_CHUNK_BYTES
    ensures var s := Run(actions); s.t.pc == FailFlag && s.c.pc == Ready && !s.x.busy
  {
    hide Run;
    actions := FirstChunkTaken(pcm);
    actions := After(actions, TaskRuns(0));
    actions := After(actions, TaskRuns(0));
  }

  /** A turn is opened over a task that is failing the one before. */
  lemma {:induction false} OpensOverFailure(pcm: seq<byte>) returns (actions: seq<Action>)
    requires 0 < |pcm| <= WRITE_CHUNK_BYTES
    ensures var s := Run(actions); s.c.pc == BegInputDone && s.t.pc == FailFlag && PositionOf(s.t) == Harmful
  {
    hide Run;
    actions := FirstTurnFailing(pcm);
    actions := CancelIdle(actions);
    actions := BeginUntilOpen(actions);
  }

  /** A turn is opened over a task that is draining the one before. */
  lemma {:induction false} OpensOverDrain() returns (actions: seq<Action>)
    ensures var s := Run(actions); s.c.pc == BegInputDone && s.t.pc == DrainMark && PositionOf(s.t) == Harmful
  {
    hide Run;
    actions := CancelledMidDrain();
    actions := BeginUntilOpen(actions);
  }
}
