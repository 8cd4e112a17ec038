/** How soon a turn whose input is finished drains. */
module PlaybackProgress {
  import opened Common
  import opened PlaybackPolicy
  import opened PlaybackMachine
  import opened PlaybackInvariant

  /** The task alone, with I2S writes and receives as large as they can be, back to its loop head. */
  function ToHead(s: State, fuel: nat): State
    decreases fuel
  {
    if fuel == 0 || s.t.pc == LoopHead then s else ToHead(TaskStep(s, WRITE_CHUNK_BYTES), fuel - 1)
  }

  function Iteration(s: State): State {
    ToHead(TaskStep(s, WRITE_CHUNK_BYTES), 20)
  }

  function Iterations(s: State, k: nat): State
    decreases k
  {
    if k == 0 then s else Iterations(Iteration(s), k - 1)
  }

  /** The task is at its loop head of a live turn whose input is finished. */
  predicate Finishing(s: State) {
    s.t.pc == LoopHead && s.x.active && s.x.inputDone && !s.x.drained
  }

  function ChunksOf(bytes: nat): nat {
    Max(1, (bytes + WRITE_CHUNK_BYTES - 1) / WRITE_CHUNK_BYTES)
  }

  lemma {:induction false} StepToHead(s: State, fuel: nat)
    requires fuel > 0 && s.t.pc != LoopHead
    ensures ToHead(s, fuel) == ToHead(TaskStep(s, WRITE_CHUNK_BYTES), fuel - 1)
  {
  }

  lemma {:induction false} StopsAtHead(s: State, fuel: nat)
    requires s.t.pc == LoopHead
    ensures ToHead(s, fuel) == s
  {
  }

  /** The task enters its iteration and samples the buffer. */
  lemma {:induction false} SampleOnce(s: State) returns (r: State)
    requires Finishing(s)
    ensures Iteration(s) == ToHead(r, 19)
    ensures r.t.pc == CheckPlaying && r.t.available == |s.x.buffer|
    ensures r.c == s.c && r.x == s.x && r.h.played == s.h.played
  {
    hide ToHead;
    var s1 := TaskStep(s, WRITE_CHUNK_BYTES);
    StepToHead(s1, 20);
    r := TaskStep(s1, WRITE_CHUNK_BYTES);
  }

  /** With data queued and the input finished the task starts playing if it was not. */
  lemma {:induction false} StartIfStopped(s: State) returns (fuel: nat, r: State)
    requires s.t.pc == CheckPlaying && s.x.inputDone && s.t.available > 0
    ensures ToHead(s, 19) == ToHead(r, fuel) && fuel >= 16
    ensures r.t.pc == SetBusy && r.c == s.c && r.x == s.x.(playing := true) && r.h.played == s.h.played
  {
    hide ToHead;
    StepToHead(s, 19);
    fuel, r := 18, TaskStep(s, WRITE_CHUNK_BYTES);
    if r.t.pc == CheckStart {
      StepToHead(r, fuel);
      fuel, r := fuel - 1, TaskStep(r, WRITE_CHUNK_BYTES);
      assert r.t.pc == StartPlaying;
    }
    if r.t.pc == StartPlaying {
      StepToHead(r, fuel);
      fuel, r := fuel - 1, TaskStep(r, WRITE_CHUNK_BYTES);
    }
  }

  /** From its loop head with data queued, the task reaches the receive with playback on. */
  lemma {:induction false} ReachReceive(s: State) returns (fuel: nat, r: State)
    requires Finishing(s) && s.x.buffer != []
    ensures Iteration(s) == ToHead(r, fuel) && fuel >= 12
    ensures r.t.pc == Receive && r.c == s.c && r.x == s.x.(playing := true, busy := true)
    ensures r.h.played == s.h.played
  {
    hide Iteration, ToHead;
    r := SampleOnce(s);
    fuel, r := StartIfStopped(r);
    StepToHead(r, fuel);
    fuel, r := fuel - 1, TaskStep(r, WRITE_CHUNK_BYTES);
  }

  /** From the receive the task writes the next chunk and looks whether anything is left. */
  lemma {:induction false} PlayChunk(s: State, fuel: nat) returns (r: State)
    requires s.t.pc == Receive && s.x.active && s.x.inputDone && s.x.buffer != [] && fuel >= 12
    ensures var n := Min(|s.x.buffer|, WRITE_CHUNK_BYTES);
      && ToHead(s, fuel) == ToHead(r, fuel - 5)
      && r.t.pc == AfterWriteEmpty && r.c == s.c
      && r.x == s.x.(busy := false, buffer := s.x.buffer[n..])
      && r.h.played == s.h.played + s.x.buffer[..n]
  {
    hide ToHead, TaskStep;
    StepToHead(s, fuel);
    TakeChunk(s);
    var s1 := TaskStep(s, WRITE_CHUNK_BYTES);
    StepToHead(s1, fuel - 1);
    ChunkToWrite(s1);
    r := FinishWrite(TaskStep(s1, WRITE_CHUNK_BYTES), fuel - 2);
  }

  lemma {:induction false} TakeChunk(s: State)
    requires s.t.pc == Receive && s.x.buffer != []
    ensures var t := TaskStep(s, WRITE_CHUNK_BYTES); var n := Min(|s.x.buffer|, WRITE_CHUNK_BYTES);
      && t.t.pc == CheckActive && t.t.chunk == s.x.buffer[..n] && t.x == s.x.(buffer := s.x.buffer[n..])
      && t.c == s.c && t.h == s.h
  {
    hide WaitStep, DrainStep, WriteStep;
  }

  lemma {:induction false} ChunkToWrite(s: State)
    requires s.t.pc == CheckActive && s.t.chunk != [] && s.x.active
    ensures TaskStep(s, WRITE_CHUNK_BYTES) == s.(t := s.t.(pc := Write))
  {
    hide WaitStep, DrainStep, WriteStep;
  }

  lemma {:induction false} FinishWrite(s: State, fuel: nat) returns (r: State)
    requires s.t.pc == Write && s.x.inputDone && 0 < |s.t.chunk| <= WRITE_CHUNK_BYTES && fuel >= 10
    ensures ToHead(s, fuel) == ToHead(r, fuel - 3)
    ensures r.t.pc == AfterWriteEmpty && r.c == s.c && r.x == s.x.(busy := false)
    ensures r.h.played == s.h.played + s.t.chunk
  {
    hide ToHead;
    StepToHead(s, fuel);
    var s3 := TaskStep(s, WRITE_CHUNK_BYTES);
    assert s.t.chunk[..|s.t.chunk|] == s.t.chunk;
    StepToHead(s3, fuel - 1);
    var s4 := TaskStep(s3, WRITE_CHUNK_BYTES);
    assert s4.t.pc == AfterWriteDone;
    StepToHead(s4, fuel - 2);
    r := TaskStep(s4, WRITE_CHUNK_BYTES);
  }

  /** finishDrain runs to the loop head. */
  lemma {:induction false} FinishDrain(s: State, fuel: nat)
    requires s.t.pc == DrainStopPlaying && fuel >= 4
    ensures var t := ToHead(s, fuel);
      && t.t.pc == LoopHead && t.x == s.x.(playing := false, drained := true, active := false)
      && t.h == s.h && t.c == s.c
  {
    hide ToHead;
    StepToHead(s, fuel);
    var s1 := TaskStep(s, WRITE_CHUNK_BYTES);
    StepToHead(s1, fuel - 1);
    var s2 := TaskStep(s1, WRITE_CHUNK_BYTES);
    StepToHead(s2, fuel - 2);
    StopsAtHead(TaskStep(s2, WRITE_CHUNK_BYTES), fuel - 3);
  }

  /** One iteration plays one chunk; the iteration that empties the buffer drains the turn. */
  lemma {:induction false} IterationPlaysChunk(s: State)
    requires Finishing(s)
    ensures var t := Iteration(s); var n := Min(|s.x.buffer|, WRITE_CHUNK_BYTES);
      && t.h.played == s.h.played + s.x.buffer[..n]
      && t.x.buffer == s.x.buffer[n..]
      && (n < |s.x.buffer| ==> Finishing(t))
      && (n == |s.x.buffer| ==> t.x.drained && t.t.pc == LoopHead && !t.x.active)
  {
    hide Iteration, ToHead;
    if s.x.buffer == [] {
      IterationOnEmpty(s);
    } else {
      var fuel, r := ReachReceive(s);
      var w := PlayChunk(r, fuel);
      StepToHead(w, fuel - 5);
      var a := TaskStep(w, WRITE_CHUNK_BYTES);
      if w.x.buffer == [] {
        FinishDrain(a, fuel - 6);
      } else {
        StopsAtHead(a, fuel - 6);
      }
    }
  }

  /** An empty buffer drains through line 160 when playback is stopped, through line 178 otherwise. */
  lemma {:induction false} IterationOnEmpty(s: State)
    requires Finishing(s) && s.x.buffer == []
    ensures var t := Iteration(s);
      t.t.pc == LoopHead && t.x.drained && !t.x.active && t.h.played == s.h.played && t.x.buffer == []
  {
    hide Iteration, ToHead;
    var s2 := SampleOnce(s);
    if s.x.playing {
      StarvedDrain(s2);
    } else {
      StepToHead(s2, 19);
      var s3 := TaskStep(s2, WRITE_CHUNK_BYTES);
      StepToHead(s3, 18);
      var s4 := TaskStep(s3, WRITE_CHUNK_BYTES);
      StepToHead(s4, 17);
      FinishDrain(TaskStep(s4, WRITE_CHUNK_BYTES), 16);
    }
  }

  lemma {:induction false} StarvedDrain(s: State)
    requires s.t.pc == CheckPlaying && s.x.playing && s.x.active && s.x.inputDone && s.x.buffer == []
    ensures var t := ToHead(s, 19);
      t.t.pc == LoopHead && t.x.drained && !t.x.active && t.h.played == s.h.played && t.x.buffer == []
  {
    hide ToHead;
    StepToHead(s, 19);
    var s3 := TaskStep(s, WRITE_CHUNK_BYTES);
    StepToHead(s3, 18);
    var s4 := TaskStep(s3, WRITE_CHUNK_BYTES);
    StepToHead(s4, 17);
    var s5 := TaskStep(s4, WRITE_CHUNK_BYTES);
    assert s5.t.pc == CheckActive && s5.t.chunk == [] && s5.x.buffer == [];
    StarvedEnd(s5);
  }

  lemma {:induction false} StarvedEnd(s: State)
    requires s.t.pc == CheckActive && s.t.chunk == [] && s.x.active && s.x.inputDone && s.x.buffer == []
    ensures var t := ToHead(s, 16);
      t.t.pc == LoopHead && t.x.drained && !t.x.active && t.h.played == s.h.played && t.x.buffer == []
  {
    hide ToHead;
    StepToHead(s, 16);
    var s6 := TaskStep(s, WRITE_CHUNK_BYTES);
    assert s6.t.pc == Starved;
    StepToHead(s6, 15);
    var s7 := TaskStep(s6, WRITE_CHUNK_BYTES);
    assert s7.t.pc == StarvedDone;
    StepToHead(s7, 14);
    var s8 := TaskStep(s7, WRITE_CHUNK_BYTES);
    assert s8.t.pc == StarvedEmpty;
    StepToHead(s8, 13);
    FinishDrain(TaskStep(s8, WRITE_CHUNK_BYTES), 12);
  }

  /** A finished input of q queued bytes drains in max(1, ceil(q / 1920)) iterations, all of it played. */
  lemma {:induction false} DrainsInTime(s: State)
    requires Finishing(s)
    ensures var t := Iterations(s, ChunksOf(|s.x.buffer|));
      && t.t.pc == LoopHead && t.x.drained && !t.x.active
      && t.x.buffer == [] && t.h.played == s.h.played + s.x.buffer
    decreases |s.x.buffer|
  {
    hide Iteration;
    IterationPlaysChunk(s);
    var t := Iteration(s);
    var q := |s.x.buffer|;
    if q <= WRITE_CHUNK_BYTES {
      assert ChunksOf(q) == 1;
      assert Iterations(s, 1) == Iterations(t, 0) == t;
    } else {
      assert ChunksOf(q) == 1 + ChunksOf(q - WRITE_CHUNK_BYTES);
      DrainsInTime(t);
      assert s.x.buffer == s.x.buffer[..WRITE_CHUNK_BYTES] + s.x.buffer[WRITE_CHUNK_BYTES..];
    }
  }

  // ---------- in any schedule ----------

  /** `n` steps of the task alone, each moving as much as it can. */
  function Steps(s: State, n: nat): State
    decreases n
  {
    if n == 0 then s else Steps(TaskStep(s, WRITE_CHUNK_BYTES), n - 1)
  }

  lemma {:induction false} StepsAdd(s: State, m: nat, n: nat)
    ensures Steps(s, m + n) == Steps(Steps(s, m), n)
    decreases m
  {
    hide TaskStep;
    if m > 0 {
      StepsAdd(TaskStep(s, WRITE_CHUNK_BYTES), m - 1, n);
    }
  }

  lemma {:induction false} ToHeadIsSteps(s: State, fuel: nat) returns (n: nat)
    ensures n <= fuel && ToHead(s, fuel) == Steps(s, n)
    decreases fuel
  {
    hide TaskStep;
    n := 0;
    if fuel > 0 && s.t.pc != LoopHead {
      n := ToHeadIsSteps(TaskStep(s, WRITE_CHUNK_BYTES), fuel - 1);
      n := n + 1;
    }
  }

  const STEPS_AN_ITERATION: nat := 21

  lemma {:induction false} IterationsAreSteps(s: State, k: nat) returns (n: nat)
    ensures n <= STEPS_AN_ITERATION * k && Iterations(s, k) == Steps(s, n)
    decreases k
  {
    hide TaskStep, ToHead;
    n := 0;
    if k > 0 {
      var next := TaskStep(s, WRITE_CHUNK_BYTES);
      var m := ToHeadIsSteps(next, 20);
      assert Steps(s, m + 1) == Steps(next, m) == Iteration(s);
      n := IterationsAreSteps(Iteration(s), k - 1);
      StepsAdd(s, m + 1, n);
      n := m + 1 + n;
    }
  }

  /** A task without a turn waits. */
  lemma {:induction false} StopsForGood(s: State, n: nat)
    requires s.t.pc == LoopHead && !s.x.active
    ensures Steps(s, n) == s
    decreases n
  {
    if n > 0 {
      StopsForGood(s, n - 1);
    }
  }

  /** What the task sees and does of a state. */
  predicate SameToTask(s: State, t: State) {
    && t.t == s.t && t.h.played == s.h.played
    && t.x.active == s.x.active && t.x.inputDone == s.x.inputDone && t.x.playing == s.x.playing
    && t.x.drained == s.x.drained && t.x.busy == s.x.busy && t.x.buffer == s.x.buffer
  }

  lemma {:induction false} WaitSame(s: State, t: State)
    requires SameToTask(s, t) && InWait(s.t.pc)
    ensures SameToTask(WaitStep(s), WaitStep(t))
  {
    match s.t.pc
    case LoopHead =>
    case Sample =>
    case CheckPlaying =>
    case _ =>
  }

  lemma {:induction false} DrainSame(s: State, t: State)
    requires SameToTask(s, t) && InDrain(s.t.pc)
    ensures SameToTask(DrainStep(s), DrainStep(t))
  {
  }

  lemma {:induction false} ReceiveSame(s: State, t: State, io: nat)
    requires SameToTask(s, t) && io >= WRITE_CHUNK_BYTES && s.t.pc == Receive
    ensures SameToTask(ReceiveStep(s, WRITE_CHUNK_BYTES), ReceiveStep(t, io))
  {
    assert Received(io, |t.x.buffer|) == Received(WRITE_CHUNK_BYTES, |t.x.buffer|);
  }

  lemma {:induction false} ChunkSame(s: State, t: State, io: nat)
    requires SameToTask(s, t) && s.t.pc != Receive && InReceive(s.t.pc)
    ensures SameToTask(ReceiveStep(s, WRITE_CHUNK_BYTES), ReceiveStep(t, io))
  {
    match s.t.pc
    case CheckActive =>
    case StarvedDone =>
    case StarvedEmpty =>
    case _ =>
  }

  lemma {:induction false} WriteSame(s: State, t: State, io: nat)
    requires SameToTask(s, t) && io >= WRITE_CHUNK_BYTES && |t.t.chunk| <= WRITE_CHUNK_BYTES && s.t.pc == Write
    ensures SameToTask(WriteStep(s, WRITE_CHUNK_BYTES), WriteStep(t, io))
  {
    assert Moved(io, |t.t.chunk|) == Moved(WRITE_CHUNK_BYTES, |t.t.chunk|);
  }

  lemma {:induction false} AfterWriteSame(s: State, t: State, io: nat)
    requires SameToTask(s, t) && InWrite(s.t.pc) && s.t.pc != Write
    ensures SameToTask(WriteStep(s, WRITE_CHUNK_BYTES), WriteStep(t, io))
  {
    match s.t.pc
    case ClearBusy =>
    case AfterWriteDone =>
    case AfterWriteEmpty =>
    case _ =>
  }

  lemma {:induction false} TaskSame(s: State, t: State, io: nat)
    requires SameToTask(s, t) && io >= WRITE_CHUNK_BYTES && |t.t.chunk| <= WRITE_CHUNK_BYTES
    ensures SameToTask(TaskStep(s, WRITE_CHUNK_BYTES), TaskStep(t, io))
    ensures TaskStep(t, io).x.inputDone == t.x.inputDone && TaskStep(t, io).c == t.c
  {
    hide SameToTask, WaitStep, DrainStep, ReceiveStep, WriteStep;
    SameTask(s, t);
    TaskStepFrame(t, io);
    if InWait(s.t.pc) {
      WaitSame(s, t);
    } else if InDrain(s.t.pc) {
      DrainSame(s, t);
    } else if s.t.pc == Write {
      WriteSame(s, t, io);
    } else if InWrite(s.t.pc) {
      AfterWriteSame(s, t, io);
    } else if s.t.pc == Receive {
      ReceiveSame(s, t, io);
    } else {
      ChunkSame(s, t, io);
    }
  }

  lemma {:induction false} SameTask(s: State, t: State)
    requires SameToTask(s, t)
    ensures s.t == t.t
  {
  }

  /** The caller is in none of cancel, beginTurn and the sends of enqueue. */
  predicate CallerRests(s: State) {
    !InCancel(s.c.pc) && !InBeginTurn(s.c.pc) && !InEnqueueLoop(s.c.pc)
  }

  lemma {:induction false} EnqueueRestsOn(s: State, io: nat)
    requires CallerRests(s) && s.x.inputDone && InEnqueue(s.c.pc)
    ensures var t := EnqueueStep(s, io); CallerRests(t) && SameToTask(s, t)
  {
    hide SendStep;
  }

  lemma {:induction false} FinishRestsOn(s: State)
    requires s.x.inputDone && InFinish(s.c.pc)
    ensures var t := FinishStep(s); CallerRests(t) && SameToTask(s, t)
  {
  }

  lemma {:induction false} CallerRestsOn(s: State, io: nat)
    requires CallerRests(s) && s.x.inputDone
    ensures var t := CallerStep(s, io); CallerRests(t) && SameToTask(s, t)
  {
    hide CancelStep, BeginStep, ActivateStep, EnqueueStep, FinishStep;
    if InEnqueue(s.c.pc) {
      EnqueueRestsOn(s, io);
    } else if InFinish(s.c.pc) {
      FinishRestsOn(s);
    }
  }

  lemma {:induction false} CallRestsOn(s: State, call: Call)
    requires CallerRests(s) && call != BeginTurn && call != Cancel
    ensures var t := StartCall(s, call); CallerRests(t) && SameToTask(s, t)
  {
  }

  /** Full I2S writes and receives, and neither cancel nor beginTurn. */
  predicate Undisturbed(a: Action) {
    match a
    case TaskRuns(io) => io >= WRITE_CHUNK_BYTES
    case CallerRuns(_) => true
    case Invoke(call) => call != BeginTurn && call != Cancel
  }

  function TaskStepsIn(actions: seq<Action>): nat
    decreases |actions|
  {
    if actions == [] then 0 else (if actions[0].TaskRuns? then 1 else 0) + TaskStepsIn(actions[1..])
  }

  /** Whatever the caller does meanwhile, the task runs as if alone. */
  lemma {:induction false} TaskRunsAlone(s: State, t: State, actions: seq<Action>)
    requires SameToTask(s, t) && t.x.inputDone && CallerRests(t) && TaskInv(t)
    requires forall i :: 0 <= i < |actions| ==> Undisturbed(actions[i])
    ensures SameToTask(Steps(s, TaskStepsIn(actions)), Continue(t, actions))
    decreases |actions|
  {
    hide SameToTask, TaskStep, CallerStep, StartCall, CallerRests, TaskInv;
    if actions != [] {
      var next := Step(t, actions[0]);
      assert Undisturbed(actions[0]);
      ChunkBounded(t);
      match actions[0] {
        case TaskRuns(io) =>
          TaskSame(s, t, io);
          TaskKeepsTask(t, io);
          RestsBeside(t, next);
          TaskRunsAlone(TaskStep(s, WRITE_CHUNK_BYTES), next, actions[1..]);
        case CallerRuns(io) =>
          CallerRestsOn(t, io);
          SameFollows(s, t, next);
          TaskRunsAlone(s, next, actions[1..]);
        case Invoke(call) =>
          CallRestsOn(t, call);
          SameFollows(s, t, next);
          TaskRunsAlone(s, next, actions[1..]);
      }
    }
  }

  lemma {:induction false} ChunkBounded(s: State)
    requires TaskInv(s)
    ensures |s.t.chunk| <= WRITE_CHUNK_BYTES
  {
  }

  lemma {:induction false} RestsBeside(s: State, t: State)
    requires CallerRests(s) && t.c == s.c
    ensures CallerRests(t)
  {
  }

  lemma {:induction false} SameFollows(s: State, t: State, u: State)
    requires SameToTask(s, t) && SameToTask(t, u)
    ensures SameToTask(s, u) && u.x.inputDone == t.x.inputDone && (TaskInv(t) ==> TaskInv(u))
  {
  }

  /** A turn whose input is finished drains within 21 steps of the task a chunk, in every such schedule. */
  lemma {:induction false} DrainsInAnySchedule(s: State, actions: seq<Action>)
    requires Inv(s) && Finishing(s) && !InCancel(s.c.pc) && !InBeginTurn(s.c.pc)
    requires forall i :: 0 <= i < |actions| ==> Undisturbed(actions[i])
    requires TaskStepsIn(actions) >= STEPS_AN_ITERATION * ChunksOf(|s.x.buffer|)
    ensures var t := Continue(s, actions);
      && t.t.pc == LoopHead && t.x.drained && !t.x.active
      && t.x.buffer == [] && t.h.played == s.h.played + s.x.buffer
  {
    hide Iterations, Steps, Continue, TaskInv, ControlInv, CountInv, BeginInv, TurnInv, PaceInv, ChunksOf;
    var k := ChunksOf(|s.x.buffer|);
    DrainsInTime(s);
    var n := IterationsAreSteps(s, k);
    StopsForGood(Steps(s, n), TaskStepsIn(actions) - n);
    StepsAdd(s, n, TaskStepsIn(actions) - n);
    TaskRunsAlone(s, s, actions);
  }
}
