/** Playback starts at the watermark and goes on while there is data, whether or not the input is finished. */
module PlaybackStarting {
  import opened Common
  import opened PlaybackPolicy
  import opened PlaybackMachine
  import opened PlaybackInvariant
  import opened PlaybackProgress

  /** The caller is in neither cancel nor beginTurn. */
  predicate Keeping(s: State) {
    !InCancel(s.c.pc) && !InBeginTurn(s.c.pc)
  }

  /**
   The task is on its way to play: it plays already, or it has played nothing since `start` bytes and has seen, or
   will see, 12288 bytes queued. A chunk in hand is as long as what is owed up to `goal`, or full.
   */
  predicate OnTheWay(s: State, start: nat, goal: nat) {
    match s.t.pc
    case LoopHead => s.x.playing || (|s.h.played| == start && |s.x.buffer| >= 12288)
    case Sample => s.x.playing || (|s.h.played| == start && |s.x.buffer| >= 12288)
    case CheckPlaying => s.x.playing || (|s.h.played| == start && s.t.available >= 12288)
    case StartPlaying => |s.h.played| == start
    case SetBusy => s.x.playing
    case Receive => s.x.playing
    case CheckActive => s.x.playing && s.t.chunk != [] && |s.t.chunk| >= Min(1920, goal - |s.h.played|)
    case Write => s.x.playing && s.t.chunk != [] && |s.t.chunk| >= Min(1920, goal - |s.h.played|)
    case ClearBusy => s.x.playing && s.t.written == |s.t.chunk|
    case AfterWriteDone => s.x.playing
    case AfterWriteEmpty => s.x.playing
    case _ => false
  }

  /** Bytes in hand or queued reach up to `goal`, and the turn goes on. */
  predicate Owed(s: State, goal: nat) {
    s.x.active && !s.h.cancelled && !s.h.ioFailed && goal <= |s.h.played| + |InFlight(s)| + |s.x.buffer|
  }

  predicate Going(s: State, start: nat, goal: nat) {
    Owed(s, goal) && OnTheWay(s, start, goal)
  }

  function PlaceOf(pc: TaskPc): nat {
    match pc
    case LoopHead => 8
    case Sample => 7
    case CheckPlaying => 6
    case StartPlaying => 5
    case SetBusy => 4
    case Receive => 3
    case CheckActive => 2
    case Write => 1
    case ClearBusy => 11
    case AfterWriteDone => 10
    case _ => 9
  }

  /** Steps of the task until `goal` bytes are played: eleven a chunk, and up to eight to the next write. */
  function StepsLeft(s: State, goal: nat): nat
    requires |s.h.played| < goal
  {
    PlaceOf(s.t.pc) + 11 * ((goal - |s.h.played| - 1) / 1920)
  }

  /** `t` has played up to `goal`, or goes on with fewer steps to do. */
  predicate Nearer(s: State, t: State, start: nat, goal: nat, steps: nat)
    requires |s.h.played| < goal
  {
    && |s.h.played| <= |t.h.played|
    && (|t.h.played| < goal ==> Going(t, start, goal) && StepsLeft(t, goal) + steps <= StepsLeft(s, goal))
  }

  lemma {:induction false} WaitNears(s: State, start: nat, goal: nat)
    requires Going(s, start, goal) && |s.h.played| < goal && InWait(s.t.pc)
    ensures Nearer(s, WaitStep(s), start, goal, 1)
  {
    match s.t.pc
    case LoopHead =>
    case Sample =>
    case CheckPlaying =>
    case StartPlaying =>
  }

  lemma {:induction false} ReceiveNears(s: State, start: nat, goal: nat, io: nat)
    requires Going(s, start, goal) && |s.h.played| < goal && InReceive(s.t.pc) && io >= 1920
    ensures Nearer(s, ReceiveStep(s, io), start, goal, 1)
  {
    match s.t.pc
    case SetBusy =>
    case Receive => assert Received(io, |s.x.buffer|) == Min(|s.x.buffer|, 1920);
    case CheckActive =>
  }

  lemma {:induction false} WriteNears(s: State, start: nat, goal: nat, io: nat)
    requires Going(s, start, goal) && |s.h.played| < goal && s.t.pc == Write && io >= 1920 >= |s.t.chunk|
    ensures Nearer(s, WriteStep(s, io), start, goal, 1)
  {
    var t := WriteStep(s, io);
    assert |t.h.played| == |s.h.played| + |s.t.chunk|;
    if |t.h.played| < goal {
      assert (goal - |s.h.played| - 1) / 1920 == (goal - |t.h.played| - 1) / 1920 + 1;
    }
  }

  lemma {:induction false} AfterWriteNears(s: State, start: nat, goal: nat, io: nat)
    requires Going(s, start, goal) && |s.h.played| < goal && InWrite(s.t.pc) && s.t.pc != Write
    ensures Nearer(s, WriteStep(s, io), start, goal, 1)
  {
    match s.t.pc
    case ClearBusy =>
    case AfterWriteDone =>
    case AfterWriteEmpty =>
  }

  lemma {:induction false} TaskNears(s: State, start: nat, goal: nat, io: nat)
    requires Going(s, start, goal) && |s.h.played| < goal && |s.t.chunk| <= 1920 <= io
    ensures Nearer(s, TaskStep(s, io), start, goal, 1)
  {
    hide Nearer, Owed, WaitStep, DrainStep, ReceiveStep, WriteStep, StepsLeft;
    if InWait(s.t.pc) {
      WaitNears(s, start, goal);
    } else if s.t.pc == Write {
      WriteNears(s, start, goal, io);
    } else if InWrite(s.t.pc) {
      AfterWriteNears(s, start, goal, io);
    } else {
      ReceiveNears(s, start, goal, io);
    }
  }

  // ---------- beside the caller ----------

  /** What a caller that neither cancels nor begins a turn leaves of the task and its turn; it may add to the buffer. */
  predicate AddedTo(s: State, t: State) {
    && t.t == s.t && t.h.played == s.h.played && s.h.accepted <= t.h.accepted && s.x.buffer <= t.x.buffer
    && t.x.active == s.x.active && t.x.playing == s.x.playing
    && t.h.cancelled == s.h.cancelled && t.h.ioFailed == s.h.ioFailed && t.h.begun == s.h.begun
    && Keeping(t)
  }

  lemma {:induction false} SendAdds(s: State, io: nat)
    requires s.c.pc.EnqSend?
    ensures AddedTo(s, SendStep(s, io))
  {
  }

  lemma {:induction false} EnqueueLeaves(s: State, io: nat)
    requires InEnqueue(s.c.pc) && !s.c.pc.EnqSend?
    ensures var t := EnqueueStep(s, io);
      && t.t == s.t && t.h == s.h && t.x.buffer == s.x.buffer
      && t.x.active == s.x.active && t.x.playing == s.x.playing && (InEnqueue(t.c.pc) || t.c.pc == Ready)
  {
    hide SendStep;
  }

  lemma {:induction false} EnqueueAdds(s: State, io: nat)
    requires InEnqueue(s.c.pc)
    ensures AddedTo(s, EnqueueStep(s, io))
  {
    if s.c.pc.EnqSend? {
      SendAdds(s, io);
    } else {
      EnqueueLeaves(s, io);
      hide EnqueueStep;
    }
  }

  lemma {:induction false} CallerAdds(s: State, io: nat)
    requires Keeping(s)
    ensures AddedTo(s, CallerStep(s, io))
  {
    hide CancelStep, BeginStep, ActivateStep, EnqueueStep;
    if InEnqueue(s.c.pc) {
      EnqueueAdds(s, io);
    }
  }

  lemma {:induction false} CallAdds(s: State, call: Call)
    requires Keeping(s) && call != BeginTurn && call != Cancel
    ensures AddedTo(s, StartCall(s, call))
  {
  }

  lemma {:induction false} AddedNears(s: State, t: State, start: nat, goal: nat)
    requires AddedTo(s, t) && |s.h.played| < goal && Going(s, start, goal)
    ensures Nearer(s, t, start, goal, 0)
  {
  }

  /** One step of a schedule without cancel and beginTurn, as long as something is owed. */
  lemma {:induction false} StepNears(s: State, a: Action, start: nat, goal: nat)
    requires Keeping(s) && Undisturbed(a) && TaskInv(s) && |s.h.played| < goal && Going(s, start, goal)
    ensures Nearer(s, Step(s, a), start, goal, if a.TaskRuns? then 1 else 0)
  {
    hide Nearer, Going, TaskStep, CallerStep, StartCall, Keeping, AddedTo;
    match a
    case TaskRuns(io) =>
      ChunkBounded(s);
      TaskNears(s, start, goal, io);
    case CallerRuns(io) =>
      CallerAdds(s, io);
      AddedNears(s, Step(s, a), start, goal);
    case Invoke(call) =>
      CallAdds(s, call);
      AddedNears(s, Step(s, a), start, goal);
  }

  /** What such a schedule keeps of the turn, also when nothing is owed any more. */
  predicate SameTurn(s: State, t: State) {
    && s.h.accepted <= t.h.accepted && |s.h.played| <= |t.h.played| && t.h.begun == s.h.begun && Keeping(t)
  }

  lemma {:induction false} PlayedGrows(s: State, io: nat)
    ensures |s.h.played| <= |TaskStep(s, io).h.played|
  {
    hide WaitStep, DrainStep, ReceiveStep, WriteStep;
    if InWait(s.t.pc) {
      assert WaitStep(s).h.played == s.h.played by { WaitLeavesPlayed(s); }
    } else if InWrite(s.t.pc) {
      WriteGrowsPlayed(s, io);
    } else {
      ReceiveLeavesPlayed(s, io);
    }
  }

  lemma {:induction false} WaitLeavesPlayed(s: State)
    ensures WaitStep(s).h.played == s.h.played
  {
  }

  lemma {:induction false} WriteGrowsPlayed(s: State, io: nat)
    ensures |s.h.played| <= |WriteStep(s, io).h.played|
  {
  }

  lemma {:induction false} ReceiveLeavesPlayed(s: State, io: nat)
    ensures ReceiveStep(s, io).h.played == s.h.played && DrainStep(s).h.played == s.h.played
  {
  }

  lemma {:induction false} StepSameTurn(s: State, a: Action)
    requires Keeping(s) && Undisturbed(a)
    ensures SameTurn(s, Step(s, a))
  {
    hide TaskStep, CallerStep, StartCall;
    match a
    case TaskRuns(io) =>
      TaskStepFrame(s, io);
      PlayedGrows(s, io);
    case CallerRuns(io) => CallerAdds(s, io);
    case Invoke(call) => CallAdds(s, call);
  }

  lemma {:induction false} SameTurnThen(s: State, t: State, u: State)
    requires SameTurn(s, t) && SameTurn(t, u)
    ensures SameTurn(s, u)
  {
  }

  lemma {:induction false} NearerThen(s: State, t: State, u: State, start: nat, goal: nat, m: nat, n: nat)
    requires |s.h.played| < goal && |t.h.played| <= |u.h.played|
    requires Nearer(s, t, start, goal, m) && (|t.h.played| < goal ==> Nearer(t, u, start, goal, n))
    ensures Nearer(s, u, start, goal, m + n)
  {
    hide StepsLeft, Going;
  }

  lemma {:induction false} ScheduleNears(s: State, actions: seq<Action>, start: nat, goal: nat)
    requires Inv(s) && Keeping(s) && |s.h.played| < goal && Going(s, start, goal)
    requires forall i :: 0 <= i < |actions| ==> Undisturbed(actions[i])
    ensures Nearer(s, Continue(s, actions), start, goal, TaskStepsIn(actions))
    decreases |actions|
  {
    hide Nearer, Going, Step, Inv, Keeping, SameTurn;
    if actions == [] {
      NearerNothing(s, start, goal);
    } else {
      var t := Step(s, actions[0]);
      assert Undisturbed(actions[0]);
      InvHasTask(s);
      StepNears(s, actions[0], start, goal);
      StepSameTurn(s, actions[0]);
      StepKeepsInv(s, actions[0]);
      SameTurnMeans(s, t);
      NearerMeans(s, t, start, goal, if actions[0].TaskRuns? then 1 else 0);
      var u := Continue(t, actions[1..]);
      ScheduleKeepsTurn(t, actions[1..]);
      SameTurnMeans(t, u);
      if |t.h.played| < goal {
        ScheduleNears(t, actions[1..], start, goal);
      }
      NearerThen(s, t, u, start, goal, if actions[0].TaskRuns? then 1 else 0, TaskStepsIn(actions[1..]));
    }
  }

  lemma {:induction false} NearerNothing(s: State, start: nat, goal: nat)
    requires |s.h.played| < goal && Going(s, start, goal)
    ensures Nearer(s, s, start, goal, 0)
  {
  }

  lemma {:induction false} InvHasTask(s: State)
    requires Inv(s)
    ensures TaskInv(s)
  {
  }

  lemma {:induction false} SameTurnMeans(s: State, t: State)
    requires SameTurn(s, t)
    ensures Keeping(t) && |s.h.played| <= |t.h.played|
  {
  }

  lemma {:induction false} NearerMeans(s: State, t: State, start: nat, goal: nat, steps: nat)
    requires |s.h.played| < goal && Nearer(s, t, start, goal, steps)
    ensures |t.h.played| < goal ==> Going(t, start, goal)
  {
  }

  lemma {:induction false} ScheduleKeepsTurn(s: State, actions: seq<Action>)
    requires Keeping(s) && Inv(s)
    requires forall i :: 0 <= i < |actions| ==> Undisturbed(actions[i])
    ensures SameTurn(s, Continue(s, actions)) && Inv(Continue(s, actions))
    decreases |actions|
  {
    hide Step, Inv;
    if actions != [] {
      var t := Step(s, actions[0]);
      assert Undisturbed(actions[0]);
      StepSameTurn(s, actions[0]);
      StepKeepsInv(s, actions[0]);
      ScheduleKeepsTurn(t, actions[1..]);
      SameTurnThen(s, t, Continue(t, actions[1..]));
    }
  }

  // ---------- the theorems ----------

  /** The task is at its loop head of a live turn with 12288 bytes queued, or plays already and has some queued. */
  predicate Loaded(s: State) {
    && s.t.pc == LoopHead && s.x.active && s.h.begun != Harmful && s.x.buffer != []
    && (|s.x.buffer| >= 12288 || s.x.playing)
  }

  lemma {:induction false} LoadedGoes(s: State, goal: nat)
    requires Inv(s) && Loaded(s) && |s.h.played| < goal <= |s.h.played| + |s.x.buffer|
    ensures Going(s, |s.h.played|, goal) && s.h.accepted == s.h.played + s.x.buffer
  {
    assert InFlight(s) == [];
  }

  /**
   Input open or finished, in any schedule without cancel and beginTurn and with full transfers: the first n queued
   bytes are played, in order, within eight steps of the task to the first chunk and eleven more for each further one.
   */
  lemma {:induction false} PlaysWhatIsQueued(s: State, actions: seq<Action>, n: nat)
    requires Inv(s) && Loaded(s) && !InCancel(s.c.pc) && !InBeginTurn(s.c.pc)
    requires forall i :: 0 <= i < |actions| ==> Undisturbed(actions[i])
    requires 0 < n <= |s.x.buffer| && TaskStepsIn(actions) >= 8 + 11 * ((n - 1) / 1920)
    ensures s.h.played + s.x.buffer[..n] <= Continue(s, actions).h.played
  {
    hide Inv, Nearer, Going, Continue, TaskStepsIn, SameTurn;
    var t, goal := Continue(s, actions), |s.h.played| + n;
    LoadedGoes(s, goal);
    ScheduleNears(s, actions, |s.h.played|, goal);
    ScheduleKeepsTurn(s, actions);
    if |t.h.played| < goal {
      NothingLeft(s, t, |s.h.played|, goal, TaskStepsIn(actions));
    }
    PlayedInOrder(s, t, n);
  }

  lemma {:induction false} NothingLeft(s: State, t: State, start: nat, goal: nat, steps: nat)
    requires s.t.pc == LoopHead && start == |s.h.played| < goal && Nearer(s, t, start, goal, steps)
    requires steps >= 8 + 11 * ((goal - start - 1) / 1920)
    ensures |t.h.played| >= goal
  {
  }

  lemma {:induction false} PlayedInOrder(s: State, t: State, n: nat)
    requires Inv(t) && SameTurn(s, t) && s.h.begun != Harmful && n <= |s.x.buffer|
    requires s.h.accepted == s.h.played + s.x.buffer && |t.h.played| >= |s.h.played| + n
    ensures s.h.played + s.x.buffer[..n] <= t.h.played
  {
    hide TaskInv, ControlInv, EnqueueInv, CountInv, BeginInv, EarlyInv, DrainInv, PaceInv;
    assert t.h.played <= t.h.accepted;
    var front := s.h.played + s.x.buffer[..n];
    assert front <= s.h.accepted <= t.h.accepted;
    assert t.h.played == t.h.accepted[..|t.h.played|] && front == t.h.accepted[..|front|];
  }

  /** ... and from the task's fourth step until all of them are, playing_ is set. */
  lemma {:induction false} PlaybackStarts(s: State, actions: seq<Action>)
    requires Inv(s) && Loaded(s) && !InCancel(s.c.pc) && !InBeginTurn(s.c.pc)
    requires forall i :: 0 <= i < |actions| ==> Undisturbed(actions[i])
    requires TaskStepsIn(actions) >= 4
    ensures var t := Continue(s, actions);
      |t.h.played| < |s.h.played| + |s.x.buffer| ==> t.x.playing && t.x.active
  {
    hide Inv, Nearer, Going, Continue, TaskStepsIn;
    var t, goal := Continue(s, actions), |s.h.played| + |s.x.buffer|;
    LoadedGoes(s, goal);
    ScheduleNears(s, actions, |s.h.played|, goal);
    if |t.h.played| < goal {
      PastTheStart(s, t, goal, TaskStepsIn(actions));
    }
  }

  lemma {:induction false} PastTheStart(s: State, t: State, goal: nat, steps: nat)
    requires s.t.pc == LoopHead && |s.h.played| < goal && Nearer(s, t, |s.h.played|, goal, steps) && steps >= 4
    requires |t.h.played| < goal
    ensures t.x.playing && t.x.active
  {
  }
}
