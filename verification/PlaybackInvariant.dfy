/** What every step of either playback thread keeps. */
module PlaybackInvariant {
  import opened Common
  import opened PlaybackPolicy
  import opened PlaybackMachine

  /** The chunk taken from the buffer that is still on its way to the I2S bus. */
  function InFlight(s: State): seq<byte> {
    if (s.t.pc.CheckActive? || s.t.pc.Write?) then s.t.chunk else []
  }

  /** No byte of the turn is lost or reordered. */
  predicate Intact(s: State) {
    s.h.played + InFlight(s) + s.x.buffer == s.h.accepted
  }

  /** The task takes no further byte from the buffer in this turn. */
  predicate CannotReceive(s: State) {
    || (s.t.pc == ClearBusy && s.t.written != |s.t.chunk|)
    || (s.t.pc.FailFlag? || s.t.pc.FailDeactivate? || s.t.pc.FailStopPlaying?)
    || (!s.x.active && !(s.t.pc.Sample? || s.t.pc.CheckPlaying? || s.t.pc.CheckStart? || s.t.pc.StartPlaying?
                            || s.t.pc.CheckEmptyDone? || s.t.pc.SetBusy? || s.t.pc.Receive?))
  }

  predicate InBegin(pc: CallerPc) {
    pc.BegInputDone? || pc.BegPlaying? || pc.BegDrained? || pc.BegFailed?
    || pc.BegMaximum? || pc.BegUnderruns? || pc.BegTotal? || pc.BegStart?
  }

  /** Whatever bounds the buffer bounds the recorded maximum. */
  predicate MaximumBelow(s: State, limit: nat) {
    && s.x.maximumQueued <= limit
    && (s.c.pc.EnqLoadMaximum? || s.c.pc.EnqRaiseMaximum? ==> s.c.observed <= limit)
  }

  /** The task's own bounds and its busy_ flag. */
  ghost predicate TaskInv(s: State) {
    && |s.t.chunk| <= WRITE_CHUNK_BYTES
    && (s.x.busy <==> (s.t.pc.Receive? || s.t.pc.CheckActive? || s.t.pc.AbandonChunk? || s.t.pc.Starved?
                       || s.t.pc.Write? || s.t.pc.ClearBusy?))
    && (s.t.pc.Starved? || s.t.pc.StarvedDone? || s.t.pc.StarvedEmpty? ==> s.t.chunk == [])
    && (s.t.pc.Write? ==> s.t.chunk != [])
  }

  /** Where in cancel and beginTurn the caller is decides active_ and the buffer. */
  ghost predicate ControlInv(s: State) {
    && |s.x.buffer| <= CAPACITY_BYTES
    && MaximumBelow(s, CAPACITY_BYTES)
    && (s.h.cancelled ==> !s.x.active)
    && ((InCancel(s.c.pc) && !s.c.pc.CanActive?) || s.c.pc.BegReset? || InBegin(s.c.pc) ==> s.h.cancelled)
    && (InBegin(s.c.pc) ==> s.x.buffer == [])
    && (InBegin(s.c.pc) && !s.c.pc.BegInputDone? ==> !s.x.inputDone)
    && (s.c.pc.FinStore? || s.c.pc.EnqInputDone? ==> !s.h.cancelled)
  }

  /** enqueue appends exactly the prefix it reports, within eight sends a byte. */
  ghost predicate EnqueueInv(s: State) {
    && (InEnqueueLoop(s.c.pc) ==> !s.x.inputDone && !s.h.cancelled && s.c.attempts < MAX_NO_PROGRESS_ATTEMPTS)
    && (InEnqueue(s.c.pc) ==>
          && s.c.sent <= |s.c.pcm|
          && s.h.accepted == s.h.base + s.c.pcm[..s.c.sent]
          && s.c.attempts <= MAX_NO_PROGRESS_ATTEMPTS
          && s.h.sends <= MAX_NO_PROGRESS_ATTEMPTS * s.c.sent + s.c.attempts)
    && ((s.c.pc.EnqActive? || s.c.pc.EnqInputDone?) ==> s.c.sent == s.c.attempts == 0)
    && (InEnqueue(s.c.pc) && !AfterSend(s.c.pc)
        ==> s.c.sent < |s.c.pcm|)
    && (AfterSend(s.c.pc) ==> s.c.attempts == 0)
  }

  /** The byte total and the queue maximum. */
  ghost predicate CountInv(s: State) {
    && (!s.h.cancelled ==> s.x.totalEnqueued + (if s.c.pc.EnqTotal? then s.c.got else 0) == |s.h.accepted|)
    && (s.c.pc.BegStart? ==> s.x.totalEnqueued == 0)
    && (s.c.pc.EnqRaiseMaximum? ==> s.c.maximum < s.c.observed)
    && (s.c.pc.BegUnderruns? || s.c.pc.BegTotal? || s.c.pc.BegStart? ==> s.x.maximumQueued == 0)
  }

  /** Until the turn is active a task that was found harmless stays so, and one at its loop head stays there. */
  ghost predicate BeginInv(s: State) {
    InBegin(s.c.pc) && s.c.pc != BegInputDone ==>
      && (s.h.found != Harmful ==> PositionOf(s.t) != Harmful)
      && (s.h.found == AtHead ==>
            && s.t.pc == LoopHead
            && (s.c.pc != BegPlaying ==> !s.x.playing)
            && ((s.c.pc.BegTotal? || s.c.pc.BegStart?) ==> s.x.underruns == 0))
      && (s.h.found != Harmful && !(s.c.pc.BegPlaying? || s.c.pc.BegDrained?) ==> !s.x.drained)
  }

  /** Bytes: what is played is a prefix, and nothing is lost before a cancel or a short write. */
  ghost predicate DataInv(s: State) {
    && s.h.played + InFlight(s) <= s.h.accepted
    && (Intact(s) || s.x.buffer == [] || CannotReceive(s))
    && (!s.h.cancelled && !s.h.ioFailed ==> Intact(s))
    && (!(s.t.pc.LoopHead? || s.t.pc.FailStopPlaying?) ==> s.x.active || s.h.cancelled)
    && (s.t.pc == ClearBusy ==> (s.h.ioFailed <==> s.t.written != |s.t.chunk|))
    && ((s.t.pc.FailFlag? || s.t.pc.FailDeactivate?) ==> s.h.ioFailed)
    && (s.h.ioFailed ==> (s.t.pc.ClearBusy? || s.t.pc.FailFlag? || s.t.pc.FailDeactivate? || s.t.pc.FailStopPlaying?)
                         || (!s.x.active && s.t.pc == LoopHead))
    && (s.t.pc.FailStopPlaying? && s.h.ioFailed ==> !s.x.active)
    && (!s.x.active && !s.h.cancelled && !s.h.ioFailed ==> s.x.drained)
  }

  /** An empty sample of line 155 says everything accepted by then was played. */
  ghost predicate EarlyInv(s: State) {
    (s.t.pc.CheckPlaying? || s.t.pc.CheckStart? || s.t.pc.CheckEmptyDone?) && s.t.available == 0 ==>
      (!s.h.cancelled ==>
         && |s.h.played| == s.h.mark <= |s.h.accepted|
         && (s.h.markDone ==> s.x.inputDone && s.h.mark == |s.h.accepted|))
  }

  /** The sample of line 155 stays a lower bound until a cancel. */
  ghost predicate SampleInv(s: State) {
    && (s.t.pc.CheckPlaying? || s.t.pc.CheckStart? || s.t.pc.StartPlaying? || s.t.pc.CheckEmptyDone? ==>
          s.h.cancelled || s.t.available <= |s.x.buffer|)
    && ((s.t.pc.CheckStart? || s.t.pc.StartPlaying? || s.t.pc.CheckEmptyDone?) && !s.h.cancelled ==> !s.x.playing)
    && (s.t.pc == StartPlaying && !s.h.cancelled ==>
          s.t.available > 0 && (s.t.available >= START_WATERMARK_BYTES || s.x.inputDone))
    && (s.t.pc == FailStopPlaying && !s.h.cancelled ==> s.h.ioFailed)
  }

  /** Once the drain is decided nothing more is accepted or played. */
  ghost predicate DrainInv(s: State) {
    && ((s.t.pc.StarvedEmpty? || s.t.pc.AfterWriteEmpty?) && !s.h.cancelled ==> s.x.inputDone)
    && (s.t.pc.DrainDeactivate? && !s.h.cancelled ==> s.x.drained)
    && ((s.x.drained || InDrain(s.t.pc)) && !s.h.cancelled ==>
      && s.x.inputDone && !s.h.ioFailed
      && (InDrain(s.t.pc) || (s.t.pc == LoopHead && !s.x.active))
      && |s.h.played| <= |s.h.accepted|
      && (s.h.early ==> |s.h.played| == s.h.mark && (s.h.markDone ==> s.h.mark == |s.h.accepted|))
      && (!s.h.early ==> s.x.buffer == []))
  }

  /** The policy driven by the same events agrees with the running player. */
  ghost predicate PolicyInv(s: State) {
    !s.h.cancelled && !s.h.ioFailed ==>
      && s.h.policy.queued == |s.x.buffer| + |InFlight(s)|
      && s.h.policy.queued <= s.h.policy.maximum
      && s.h.policy.inputDone == s.x.inputDone
      && s.h.policy.underruns == s.x.underruns + (if s.t.pc == CountUnderrun then 1 else 0)
      && MaximumBelow(s, s.h.policy.maximum)
      && (!s.x.drained && !InDrain(s.t.pc) ==> s.h.policy.playing == s.x.playing)
  }

  /** What a turn keeps unless the task was found harmful when it was begun. */
  ghost predicate TurnInv(s: State) {
    DataInv(s) && EarlyInv(s) && DrainInv(s)
  }

  /** What it keeps as well when the task was found at its loop head. */
  ghost predicate PaceInv(s: State) {
    SampleInv(s) && PolicyInv(s)
  }

  /** Kept by every step of either thread. */
  ghost predicate Inv(s: State) {
    && TaskInv(s) && ControlInv(s) && EnqueueInv(s) && CountInv(s) && BeginInv(s)
    && (s.h.begun != Harmful ==> TurnInv(s))
    && (s.h.begun == AtHead ==> PaceInv(s))
  }

  // ---------- the playback task ----------

  /** What a step of the task leaves alone. */
  ghost predicate TaskFrame(s: State, t: State) {
    && t.c == s.c
    && t.x.inputDone == s.x.inputDone
    && t.x.maximumQueued == s.x.maximumQueued && t.x.totalEnqueued == s.x.totalEnqueued
    && (t.x.active ==> s.x.active)
    && |t.x.buffer| <= |s.x.buffer|
    && t.h.accepted == s.h.accepted && t.h.base == s.h.base && t.h.sends == s.h.sends
    && t.h.cancelled == s.h.cancelled && t.h.found == s.h.found && t.h.begun == s.h.begun
    && (s.t.pc == LoopHead && !s.x.active ==> t == s)
  }

  lemma {:induction false} WaitFrame(s: State)
    ensures TaskFrame(s, WaitStep(s)) && TaskFrame(s, DrainStep(s))
  {
    match s.t.pc
    case Sample =>
    case StartPlaying =>
    case CheckEmptyDone =>
    case _ =>
  }

  lemma {:induction false} ReceiveFrame(s: State, io: nat)
    ensures !s.t.pc.LoopHead? ==> TaskFrame(s, ReceiveStep(s, io))
  {
    match s.t.pc
    case Receive =>
    case StarvedEmpty =>
    case PauseForData =>
    case _ =>
  }

  lemma {:induction false} WriteFrame(s: State, io: nat)
    ensures !s.t.pc.LoopHead? ==> TaskFrame(s, WriteStep(s, io))
  {
    match s.t.pc
    case Write =>
    case AfterWriteEmpty =>
    case _ =>
  }

  lemma {:induction false} TaskFrameKeeps(s: State, t: State)
    requires TaskFrame(s, t) && ControlInv(s) && EnqueueInv(s) && CountInv(s)
    ensures ControlInv(t) && EnqueueInv(t) && CountInv(t)
  {
  }

  lemma {:induction false} TaskKeepsTask(s: State, io: nat)
    requires TaskInv(s)
    ensures TaskInv(TaskStep(s, io))
  {
    if InWait(s.t.pc) {
    } else if InDrain(s.t.pc) {
    } else if InWrite(s.t.pc) {
    }
  }

  /** A turn that is being begun: its input is open, its buffer empty, and it is not active yet. */
  predicate Beginning(s: State) {
    !s.x.active && !s.x.inputDone && s.x.buffer == []
  }

  /** Such a turn draws a harmless task back to its loop head. */
  lemma {:induction false} HarmlessStays(s: State, io: nat)
    requires Beginning(s) && PositionOf(s.t) != Harmful
    ensures var t := TaskStep(s, io);
      && PositionOf(t.t) != Harmful && t.x.drained == s.x.drained
      && (s.t.pc == LoopHead ==> t == s)
  {
    hide DrainStep;
    if InWait(s.t.pc) {
    } else if InWrite(s.t.pc) {
    }
  }

  lemma {:induction false} TaskKeepsBegin(s: State, io: nat)
    requires ControlInv(s) && BeginInv(s) && TaskFrame(s, TaskStep(s, io))
    ensures BeginInv(TaskStep(s, io))
  {
    hide TaskStep, PositionOf;
    if InBegin(s.c.pc) && s.c.pc != BegInputDone && s.h.found != Harmful {
      HarmlessStays(s, io);
    }
  }

  lemma {:induction false} WaitKeepsTurn(s: State)
    requires ControlInv(s) && TurnInv(s) && InWait(s.t.pc)
    ensures TurnInv(WaitStep(s))
  {
    assert DataInv(WaitStep(s));
  }

  lemma {:induction false} WaitKeepsPace(s: State)
    requires ControlInv(s) && TurnInv(s) && PaceInv(s) && InWait(s.t.pc)
    ensures PaceInv(WaitStep(s))
  {
  }

  lemma {:induction false} DrainKeepsTurn(s: State)
    requires ControlInv(s) && TurnInv(s) && InDrain(s.t.pc)
    ensures TurnInv(DrainStep(s)) && (PaceInv(s) ==> PaceInv(DrainStep(s)))
  {
  }

  lemma {:induction false} WritePlays(s: State, io: nat)
    requires ControlInv(s) && DrainInv(s) && DataInv(s) && s.t.pc == Write
    ensures DataInv(WriteStep(s, io))
  {
    var n := Moved(io, |s.t.chunk|);
    assert s.t.chunk == s.t.chunk[..n] + s.t.chunk[n..];
    assert s.h.played + s.t.chunk == s.h.played + s.t.chunk[..n] + s.t.chunk[n..];
  }

  lemma {:induction false} WriteKeepsData(s: State, io: nat)
    requires ControlInv(s) && DrainInv(s) && DataInv(s) && InWrite(s.t.pc)
    ensures DataInv(WriteStep(s, io))
  {
    if s.t.pc == Write {
      WritePlays(s, io);
    }
  }

  lemma {:induction false} WriteKeepsDrain(s: State, io: nat)
    requires ControlInv(s) && TurnInv(s) && InWrite(s.t.pc)
    ensures EarlyInv(WriteStep(s, io)) && DrainInv(WriteStep(s, io))
  {
  }

  lemma {:induction false} WriteKeepsPace(s: State, io: nat)
    requires ControlInv(s) && TurnInv(s) && PaceInv(s) && InWrite(s.t.pc)
    ensures PaceInv(WriteStep(s, io))
  {
  }

  lemma {:induction false} ReceiveKeepsData(s: State, io: nat)
    requires DataInv(s) && s.t.pc == Receive
    ensures DataInv(ReceiveStep(s, io))
  {
    var n := Received(io, |s.x.buffer|);
    var t := ReceiveStep(s, io);
    assert s.x.buffer == s.x.buffer[..n] + s.x.buffer[n..];
    assert s.h.played + InFlight(s) == s.h.played;
    if Intact(s) {
      assert s.h.played + s.x.buffer[..n] + s.x.buffer[n..] == s.h.played + s.x.buffer == s.h.accepted;
      assert Intact(t);
    } else {
      assert s.x.buffer[..n] == [];
    }
  }

  predicate InReceive(pc: TaskPc) {
    !InWait(pc) && !InDrain(pc) && !InWrite(pc)
  }

  lemma {:induction false} ChunkKeepsData(s: State, io: nat)
    requires ControlInv(s) && DrainInv(s) && DataInv(s) && s.t.pc != Receive && InReceive(s.t.pc)
    ensures DataInv(ReceiveStep(s, io))
  {
  }

  lemma {:induction false} ReceiveKeepsDrain(s: State, io: nat)
    requires TaskInv(s) && ControlInv(s) && TurnInv(s) && InReceive(s.t.pc)
    ensures EarlyInv(ReceiveStep(s, io)) && DrainInv(ReceiveStep(s, io))
  {
  }

  lemma {:induction false} ReceiveKeepsPace(s: State, io: nat)
    requires TaskInv(s) && ControlInv(s) && TurnInv(s) && PaceInv(s) && InReceive(s.t.pc)
    ensures PaceInv(ReceiveStep(s, io))
  {
  }

  lemma {:induction false} TaskKeepsTurn(s: State, io: nat)
    requires TaskInv(s) && ControlInv(s) && TurnInv(s)
    ensures TurnInv(TaskStep(s, io))
  {
    hide TaskInv, ControlInv, DataInv, EarlyInv, DrainInv, WaitStep, DrainStep, WriteStep, ReceiveStep;
    if InWait(s.t.pc) {
      WaitKeepsTurn(s);
    } else if InDrain(s.t.pc) {
      DrainKeepsTurn(s);
    } else if InWrite(s.t.pc) {
      WriteKeepsData(s, io);
      WriteKeepsDrain(s, io);
    } else {
      if s.t.pc == Receive {
        ReceiveKeepsData(s, io);
      } else {
        ChunkKeepsData(s, io);
      }
      ReceiveKeepsDrain(s, io);
    }
  }

  lemma {:induction false} TaskKeepsPace(s: State, io: nat)
    requires TaskInv(s) && ControlInv(s) && TurnInv(s) && PaceInv(s)
    ensures PaceInv(TaskStep(s, io))
  {
    hide TaskInv, ControlInv, TurnInv, PaceInv, WaitStep, DrainStep, WriteStep, ReceiveStep;
    if InWait(s.t.pc) {
      WaitKeepsPace(s);
    } else if InDrain(s.t.pc) {
      DrainKeepsTurn(s);
    } else if InWrite(s.t.pc) {
      WriteKeepsPace(s, io);
    } else {
      ReceiveKeepsPace(s, io);
    }
  }

  lemma {:induction false} TaskStepFrame(s: State, io: nat)
    ensures TaskFrame(s, TaskStep(s, io))
  {
    hide TaskFrame, WaitStep, DrainStep, WriteStep, ReceiveStep;
    WaitFrame(s);
    ReceiveFrame(s, io);
    WriteFrame(s, io);
  }

  lemma {:induction false} TaskKeepsInv(s: State, io: nat)
    requires Inv(s)
    ensures Inv(TaskStep(s, io))
  {
    hide TaskStep, TaskInv, ControlInv, EnqueueInv, CountInv, BeginInv, TurnInv, PaceInv;
    var t := TaskStep(s, io);
    TaskStepFrame(s, io);
    TaskFrameKeeps(s, t);
    TaskKeepsBegin(s, io);
    TaskKeepsTask(s, io);
    if s.h.begun != Harmful {
      TaskKeepsTurn(s, io);
    }
    if s.h.begun == AtHead {
      TaskKeepsPace(s, io);
    }
  }

  // ---------- the caller ----------

  /** What any step of the caller leaves alone while no new turn starts. */
  ghost predicate CallerFrame(s: State, t: State) {
    && t.t == s.t && t.x.busy == s.x.busy
    && t.h.played == s.h.played && t.h.mark == s.h.mark && t.h.markDone == s.h.markDone
    && t.h.early == s.h.early && t.h.ioFailed == s.h.ioFailed && t.h.begun == s.h.begun
  }

  /** A step that touches nothing the turn's bytes depend on. */
  ghost predicate Quiet(s: State, t: State) {
    && CallerFrame(s, t)
    && t.x.active == s.x.active && t.x.inputDone == s.x.inputDone && t.x.playing == s.x.playing
    && t.x.drained == s.x.drained && t.x.buffer == s.x.buffer && t.x.underruns == s.x.underruns
    && t.h.accepted == s.h.accepted && t.h.policy == s.h.policy && t.h.cancelled == s.h.cancelled
  }

  /** After the first step of cancel the turn is cancelled and its buffer can only be emptied. */
  ghost predicate CancelledFrame(s: State, t: State) {
    && CallerFrame(s, t) && t.h.cancelled && !t.x.active && t.h.accepted == s.h.accepted
    && (t.x.buffer == s.x.buffer || t.x.buffer == [])
  }

  lemma {:induction false} QuietKeepsTurn(s: State, t: State)
    requires Quiet(s, t) && TurnInv(s)
    ensures TurnInv(t)
  {
  }

  lemma {:induction false} QuietKeepsPace(s: State, t: State)
    requires Quiet(s, t) && PaceInv(s)
    requires !s.h.cancelled && !s.h.ioFailed ==> MaximumBelow(t, s.h.policy.maximum)
    ensures PaceInv(t)
  {
  }

  /** After a cancel only the prefix property is left to keep. */
  lemma {:induction false} CancelledKeepsTurn(s: State, t: State)
    requires CancelledFrame(s, t)
    ensures (TurnInv(s) ==> TurnInv(t)) && (PaceInv(s) ==> PaceInv(t))
  {
  }

  /** A step of enqueue outside the send itself. */
  predicate AroundSend(pc: CallerPc) {
    InEnqueue(pc) && !pc.EnqSend?
  }

  predicate AfterSend(pc: CallerPc) {
    pc.EnqTotal? || pc.EnqObserve? || pc.EnqLoadMaximum? || pc.EnqRaiseMaximum?
  }

  lemma {:induction false} EnqueueQuiet(s: State, io: nat)
    requires AroundSend(s.c.pc)
    ensures var t := EnqueueStep(s, io);
      && Quiet(s, t) && t.h == s.h
      && (t.c.pc == Ready || InEnqueue(t.c.pc)) && (t.c.pc.EnqInputDone? ==> s.x.active)
  {
    hide SendStep;
    match s.c.pc
    case EnqTotal =>
    case EnqObserve =>
    case EnqRaiseMaximum =>
    case EnqMarkFailed =>
    case _ =>
  }

  /** enqueue's checks move the program counter, and the call may fail. */
  lemma {:induction false} EnqueueLooks(s: State, io: nat)
    requires AroundSend(s.c.pc) && !AfterSend(s.c.pc)
    ensures var t := EnqueueStep(s, io);
      && t.h == s.h && t.c.pcm == s.c.pcm && t.c.sent == s.c.sent && t.c.attempts == s.c.attempts
      && !AfterSend(t.c.pc) && !t.c.pc.EnqActive? && t.x.inputDone == s.x.inputDone
      && (t.c.pc.EnqInputDone? ==> s.c.pc.EnqActive?)
      && (InEnqueueLoop(t.c.pc) ==> InEnqueueLoop(s.c.pc) || (s.c.pc.EnqInputDone? && !s.x.inputDone))
  {
    hide SendStep;
  }

  lemma {:induction false} EnqueueChecks(s: State, io: nat)
    requires ControlInv(s) && EnqueueInv(s) && AroundSend(s.c.pc) && !AfterSend(s.c.pc)
    ensures EnqueueInv(EnqueueStep(s, io))
  {
    hide EnqueueStep;
    EnqueueLooks(s, io);
  }

  lemma {:induction false} EnqueueCounts(s: State, io: nat)
    requires CountInv(s) && AroundSend(s.c.pc)
    ensures CountInv(EnqueueStep(s, io))
  {
    hide SendStep;
    match s.c.pc
    case EnqTotal =>
    case EnqLoadMaximum =>
    case EnqRaiseMaximum =>
    case _ =>
  }

  lemma {:induction false} EnqueueMeasures(s: State, io: nat)
    requires ControlInv(s) && EnqueueInv(s) && AfterSend(s.c.pc)
    ensures EnqueueInv(EnqueueStep(s, io))
  {
    hide SendStep;
  }

  lemma {:induction false} ChecksKeepMaximum(s: State, io: nat, limit: nat)
    requires AroundSend(s.c.pc) && !AfterSend(s.c.pc) && MaximumBelow(s, limit)
    ensures MaximumBelow(EnqueueStep(s, io), limit)
  {
  }

  lemma {:induction false} MeasuresKeepMaximum(s: State, io: nat, limit: nat)
    requires AfterSend(s.c.pc) && |s.x.buffer| <= limit && MaximumBelow(s, limit)
    ensures MaximumBelow(EnqueueStep(s, io), limit)
  {
  }

  lemma {:induction false} EnqueueKeepsMaximum(s: State, io: nat, limit: nat)
    requires AroundSend(s.c.pc) && |s.x.buffer| <= limit && MaximumBelow(s, limit)
    ensures MaximumBelow(EnqueueStep(s, io), limit)
  {
    hide EnqueueStep, MaximumBelow;
    if AfterSend(s.c.pc) {
      MeasuresKeepMaximum(s, io, limit);
    } else {
      ChecksKeepMaximum(s, io, limit);
    }
  }

  lemma {:induction false} QuietKeepsControl(s: State, t: State)
    requires Quiet(s, t) && TaskInv(s) && ControlInv(s) && AroundSend(s.c.pc)
    requires t.c.pc == Ready || InEnqueue(t.c.pc)
    requires t.c.pc.EnqInputDone? ==> s.x.active
    requires MaximumBelow(t, CAPACITY_BYTES)
    ensures TaskInv(t) && ControlInv(t) && BeginInv(t)
  {
  }

  lemma {:induction false} AcceptKeepsControl(s: State, n: nat)
    requires ControlInv(s) && EnqueueInv(s) && CountInv(s) && s.c.pc.EnqSend? && 0 < n <= Sendable(s)
    ensures var t := AcceptedStep(s, n);
      ControlInv(t) && EnqueueInv(t) && CountInv(t) && BeginInv(t) && CallerFrame(s, t)
  {
    assert s.c.pcm[..s.c.sent + n] == s.c.pcm[..s.c.sent] + s.c.pcm[s.c.sent..s.c.sent + n];
  }

  lemma {:induction false} AcceptKeepsData(s: State, n: nat)
    requires ControlInv(s) && EnqueueInv(s) && DataInv(s) && s.c.pc.EnqSend? && 0 < n <= Sendable(s)
    ensures DataInv(AcceptedStep(s, n))
  {
    var more := s.c.pcm[s.c.sent..s.c.sent + n];
    assert s.h.played + InFlight(s) + (s.x.buffer + more) == s.h.played + InFlight(s) + s.x.buffer + more;
  }

  lemma {:induction false} AcceptKeepsTurn(s: State, n: nat)
    requires ControlInv(s) && EnqueueInv(s) && TurnInv(s) && s.c.pc.EnqSend? && 0 < n <= Sendable(s)
    ensures TurnInv(AcceptedStep(s, n))
  {
    AcceptKeepsData(s, n);
  }

  lemma {:induction false} AcceptKeepsPace(s: State, n: nat)
    requires ControlInv(s) && EnqueueInv(s) && PaceInv(s) && s.c.pc.EnqSend? && 0 < n <= Sendable(s)
    ensures PaceInv(AcceptedStep(s, n))
  {
    assert InFlight(AcceptedStep(s, n)) == InFlight(s);
  }

  lemma {:induction false} RefuseKeepsInv(s: State)
    requires Inv(s) && s.c.pc.EnqSend?
    ensures Inv(RefusedStep(s))
  {
    var t := RefusedStep(s);
    assert Quiet(s, t);
    if s.h.begun != Harmful {
      QuietKeepsTurn(s, t);
    }
    if s.h.begun == AtHead {
      QuietKeepsPace(s, t);
    }
  }

  lemma {:induction false} SendKeepsInv(s: State, io: nat)
    requires Inv(s) && s.c.pc.EnqSend?
    ensures Inv(SendStep(s, io))
  {
    var n := Moved(io, Sendable(s));
    if n == 0 {
      RefuseKeepsInv(s);
    } else {
      AcceptKeepsControl(s, n);
      assert TaskInv(AcceptedStep(s, n));
      if s.h.begun != Harmful {
        AcceptKeepsTurn(s, n);
      }
      if s.h.begun == AtHead {
        AcceptKeepsPace(s, n);
      }
    }
  }

  predicate InFinish(pc: CallerPc) {
    pc.FinActive? || pc.FinStore?
  }

  lemma {:induction false} FinishKeepsControl(s: State)
    requires TaskInv(s) && ControlInv(s) && InFinish(s.c.pc)
    ensures var t := FinishStep(s); TaskInv(t) && ControlInv(t)
  {
  }

  lemma {:induction false} FinishKeepsCounts(s: State)
    requires CountInv(s) && InFinish(s.c.pc)
    ensures var t := FinishStep(s); EnqueueInv(t) && CountInv(t) && BeginInv(t)
  {
    hide PositionOf;
  }

  lemma {:induction false} FinishKeepsTurn(s: State)
    requires TurnInv(s) && InFinish(s.c.pc)
    ensures TurnInv(FinishStep(s))
  {
  }

  lemma {:induction false} FinishKeepsPace(s: State)
    requires ControlInv(s) && PaceInv(s) && InFinish(s.c.pc)
    ensures PaceInv(FinishStep(s))
  {
  }

  lemma {:induction false} FinishKeepsInv(s: State)
    requires Inv(s) && InFinish(s.c.pc)
    ensures Inv(FinishStep(s))
  {
    FinishKeepsControl(s);
    FinishKeepsCounts(s);
    if s.h.begun != Harmful {
      FinishKeepsTurn(s);
    }
    if s.h.begun == AtHead {
      FinishKeepsPace(s);
    }
  }

  /** A cancelled turn outside enqueue and beginTurn has only its prefix property to keep. */
  lemma {:induction false} CancelledKeepsInv(s: State, t: State)
    requires Inv(s) && CancelledFrame(s, t) && ControlInv(t)
    requires !InEnqueue(t.c.pc) && !InBegin(t.c.pc) && t.x.totalEnqueued == s.x.totalEnqueued
    ensures Inv(t)
  {
    CancelledKeepsTurn(s, t);
  }

  lemma {:induction false} CancelKeepsControl(s: State, io: nat)
    requires ControlInv(s) && InCancel(s.c.pc)
    ensures ControlInv(CancelStep(s, io))
  {
    match s.c.pc
    case CanActive =>
    case CanBusy =>
    case CanReset =>
    case _ =>
  }

  lemma {:induction false} CancelFrame(s: State, io: nat)
    requires ControlInv(s) && InCancel(s.c.pc)
    ensures var t := CancelStep(s, io);
      && CancelledFrame(s, t) && t.x.totalEnqueued == s.x.totalEnqueued
      && (InCancel(t.c.pc) || t.c.pc == Ready || t.c.pc == BegReset)
  {
  }

  predicate InBeginTurn(pc: CallerPc) {
    InBegin(pc) || pc.BegActive? || pc.BegReset?
  }

  /** The stores of lines 47 to 54, one at a time. */
  ghost predicate Stored(s: State, t: State) {
    && t.t == s.t && InBegin(t.c.pc) && t.c.pc != BegInputDone
    && (s.c.pc == BegInputDone <==> t.c.pc == BegPlaying)
    && (s.c.pc == BegInputDone ==> !t.x.inputDone && t.h.found == PositionOf(s.t))
    && (s.c.pc != BegInputDone ==> t.x.inputDone == s.x.inputDone && t.h.found == s.h.found)
    && (s.c.pc == BegPlaying <==> t.c.pc == BegDrained)
    && (s.c.pc == BegDrained <==> t.c.pc == BegFailed)
    && t.x.playing == (s.x.playing && s.c.pc != BegPlaying)
    && t.x.drained == (s.x.drained && s.c.pc != BegDrained)
  }

  /** What those stores leave alone, and the counts they reset. */
  ghost predicate StoredCounts(s: State, t: State) {
    && t.h == s.h.(found := t.h.found) && t.x.active == s.x.active && t.x.buffer == s.x.buffer
    && t.x.busy == s.x.busy && t.c == s.c.(pc := t.c.pc)
    && (s.c.pc == BegMaximum <==> t.c.pc == BegUnderruns)
    && (s.c.pc == BegUnderruns <==> t.c.pc == BegTotal)
    && (s.c.pc == BegTotal <==> t.c.pc == BegStart)
    && t.x.maximumQueued == (if s.c.pc == BegMaximum then 0 else s.x.maximumQueued)
    && t.x.underruns == (if s.c.pc == BegUnderruns then 0 else s.x.underruns)
    && t.x.totalEnqueued == (if s.c.pc == BegTotal then 0 else s.x.totalEnqueued)
  }

  lemma {:induction false} BeginStoresTurn(s: State, io: nat)
    requires InBegin(s.c.pc) && s.c.pc != BegStart
    ensures Stored(s, BeginStep(s, io))
  {
    hide PositionOf;
  }

  lemma {:induction false} BeginStoresCounts(s: State, io: nat)
    requires InBegin(s.c.pc) && s.c.pc != BegStart
    ensures StoredCounts(s, BeginStep(s, io))
  {
    hide PositionOf;
  }

  lemma {:induction false} AtHeadExactly(t: Task)
    ensures PositionOf(t) == AtHead <==> t.pc == LoopHead
  {
  }

  lemma {:induction false} StoresKeepControl(s: State, t: State)
    requires ControlInv(s) && InBegin(s.c.pc) && Stored(s, t) && StoredCounts(s, t)
    ensures ControlInv(t)
  {
    hide PositionOf;
  }

  lemma {:induction false} StoresKeepBegin(s: State, t: State)
    requires BeginInv(s) && InBegin(s.c.pc) && Stored(s, t) && StoredCounts(s, t)
    ensures BeginInv(t)
  {
    hide PositionOf;
    AtHeadExactly(s.t);
  }

  lemma {:induction false} StoresKeepCounts(s: State, t: State)
    requires ControlInv(s) && CountInv(s) && InBegin(s.c.pc) && Stored(s, t) && StoredCounts(s, t)
    ensures CountInv(t)
  {
    hide PositionOf;
  }

  lemma {:induction false} StoresKeepTask(s: State, t: State)
    requires TaskInv(s) && InBegin(s.c.pc) && Stored(s, t) && StoredCounts(s, t)
    ensures TaskInv(t) && EnqueueInv(t)
  {
    hide PositionOf;
  }

  /** Nothing of the turn before is left to keep but its prefix property. */
  lemma {:induction false} StoresKeepInv(s: State, t: State)
    requires Inv(s) && InBegin(s.c.pc) && Stored(s, t) && StoredCounts(s, t)
    ensures Inv(t)
  {
    hide TaskInv, ControlInv, EnqueueInv, CountInv, BeginInv, TurnInv, PaceInv, PositionOf;
    StoresKeepTask(s, t);
    StoresKeepControl(s, t);
    StoresKeepBegin(s, t);
    StoresKeepCounts(s, t);
    StoresCancel(s, t);
    CancelledKeepsTurn(s, t);
  }

  lemma {:induction false} StoresCancel(s: State, t: State)
    requires ControlInv(s) && InBegin(s.c.pc) && Stored(s, t) && StoredCounts(s, t)
    ensures CancelledFrame(s, t)
  {
    hide PositionOf;
  }

  lemma {:induction false} EntryStep(s: State, io: nat)
    requires s.c.pc.BegActive? || s.c.pc.BegReset?
    ensures s.c.pc.BegActive? && s.x.active ==> BeginStep(s, io) == Return(s, false)
    ensures s.c.pc.BegActive? && !s.x.active ==>
      BeginStep(s, io) == s.(c := s.c.(beginning := true, pc := CanActive))
    ensures s.c.pc.BegReset? && io > 0 ==> BeginStep(s, io) == CallerAt(s, BegInputDone).(x := s.x.(buffer := []))
    ensures s.c.pc.BegReset? && io == 0 ==> BeginStep(s, io) == Return(s, false)
  {
    hide CallerAt, Return;
  }

  /** Lines 38 and 43 touch nothing of the turn before but its buffer. */
  lemma {:induction false} EntryKeepsControl(s: State, io: nat)
    requires TaskInv(s) && ControlInv(s) && (s.c.pc.BegActive? || s.c.pc.BegReset?)
    ensures var t := BeginStep(s, io); TaskInv(t) && ControlInv(t)
  {
    hide BeginStep;
    EntryStep(s, io);
  }

  lemma {:induction false} EntryKeepsCounts(s: State, io: nat)
    requires CountInv(s) && (s.c.pc.BegActive? || s.c.pc.BegReset?)
    ensures var t := BeginStep(s, io); EnqueueInv(t) && CountInv(t) && BeginInv(t)
  {
    hide BeginStep, PositionOf;
    EntryStep(s, io);
  }

  lemma {:induction false} EntryKeepsTurn(s: State, io: nat)
    requires ControlInv(s) && (s.c.pc.BegActive? || s.c.pc.BegReset?)
    ensures var t := BeginStep(s, io); (TurnInv(s) ==> TurnInv(t)) && (PaceInv(s) ==> PaceInv(t))
    ensures BeginStep(s, io).h == s.h
  {
    hide BeginStep, TurnInv, PaceInv;
    EntryStep(s, io);
    var t := BeginStep(s, io);
    if s.c.pc.BegReset? {
      CancelledKeepsTurn(s, t);
    } else {
      assert Quiet(s, t) && forall limit :: MaximumBelow(s, limit) ==> MaximumBelow(t, limit);
      if TurnInv(s) {
        QuietKeepsTurn(s, t);
      }
      if PaceInv(s) {
        PaceBounds(s);
        QuietKeepsPace(s, t);
      }
    }
  }

  lemma {:induction false} PaceBounds(s: State)
    requires PaceInv(s)
    ensures !s.h.cancelled && !s.h.ioFailed ==> MaximumBelow(s, s.h.policy.maximum)
  {
    hide SampleInv, MaximumBelow, InFlight;
  }

  lemma {:induction false} EntryKeepsInv(s: State, io: nat)
    requires Inv(s) && (s.c.pc.BegActive? || s.c.pc.BegReset?)
    ensures Inv(BeginStep(s, io))
  {
    hide BeginStep, TaskInv, ControlInv, EnqueueInv, CountInv, BeginInv, TurnInv, PaceInv;
    EntryKeepsControl(s, io);
    EntryKeepsCounts(s, io);
    EntryKeepsTurn(s, io);
  }

  lemma {:induction false} ActivateKeepsInv(s: State)
    requires Inv(s) && s.c.pc.BegStart?
    ensures Inv(ActivateStep(s))
  {
  }

  lemma {:induction false} EnqueueKeepsInv(s: State, io: nat)
    requires Inv(s) && InEnqueue(s.c.pc)
    ensures Inv(EnqueueStep(s, io))
  {
    var t := EnqueueStep(s, io);
    if s.c.pc.EnqSend? {
      SendKeepsInv(s, io);
    } else {
      EnqueueQuiet(s, io);
      EnqueueCounts(s, io);
      EnqueueKeepsMaximum(s, io, CAPACITY_BYTES);
      QuietKeepsControl(s, t);
      if AfterSend(s.c.pc) {
        EnqueueMeasures(s, io);
      } else {
        EnqueueChecks(s, io);
      }
      if s.h.begun != Harmful {
        QuietKeepsTurn(s, t);
      }
      if s.h.begun == AtHead {
        if !s.h.cancelled && !s.h.ioFailed {
          EnqueueKeepsMaximum(s, io, s.h.policy.maximum);
        }
        QuietKeepsPace(s, t);
      }
    }
  }

  lemma {:induction false} CancelKeepsInv(s: State, io: nat)
    requires Inv(s) && InCancel(s.c.pc)
    ensures Inv(CancelStep(s, io))
  {
    hide CancelStep;
    var t := CancelStep(s, io);
    CancelKeepsControl(s, io);
    CancelFrame(s, io);
    CancelledKeepsInv(s, t);
  }

  lemma {:induction false} BeginKeepsInv(s: State, io: nat)
    requires Inv(s) && InBeginTurn(s.c.pc) && !s.c.pc.BegStart?
    ensures Inv(BeginStep(s, io))
  {
    hide Inv, BeginStep;
    if s.c.pc.BegActive? || s.c.pc.BegReset? {
      EntryKeepsInv(s, io);
    } else {
      BeginStoresTurn(s, io);
      BeginStoresCounts(s, io);
      StoresKeepInv(s, BeginStep(s, io));
    }
  }

  lemma {:induction false} CallerKeepsInv(s: State, io: nat)
    requires Inv(s)
    ensures Inv(CallerStep(s, io))
  {
    if s.c.pc == Ready {
    } else if InEnqueue(s.c.pc) {
      EnqueueKeepsInv(s, io);
    } else if InCancel(s.c.pc) {
      CancelKeepsInv(s, io);
    } else if InFinish(s.c.pc) {
      FinishKeepsInv(s);
    } else if s.c.pc.BegStart? {
      ActivateKeepsInv(s);
    } else {
      BeginKeepsInv(s, io);
    }
  }

  lemma {:induction false} CallKeepsControl(s: State, call: Call)
    requires ControlInv(s) && CountInv(s) && BeginInv(s)
    ensures var t := StartCall(s, call); ControlInv(t) && CountInv(t) && BeginInv(t)
  {
  }

  lemma {:induction false} CallKeepsEnqueue(s: State, call: Call)
    requires ControlInv(s) && EnqueueInv(s)
    ensures EnqueueInv(StartCall(s, call))
  {
    if s.c.pc == Ready && call.Enqueue? && call.pcm != [] {
      assert call.pcm[..0] == [];
    }
  }

  lemma {:induction false} CallQuiet(s: State, call: Call)
    ensures var t := StartCall(s, call);
      && Quiet(s, t)
      && forall limit :: MaximumBelow(s, limit) ==> MaximumBelow(t, limit)
  {
  }

  lemma {:induction false} CallKeepsInv(s: State, call: Call)
    requires Inv(s)
    ensures Inv(StartCall(s, call))
  {
    hide StartCall;
    CallKeepsControl(s, call);
    CallKeepsEnqueue(s, call);
    CallQuiet(s, call);
    if s.h.begun != Harmful {
      QuietKeepsTurn(s, StartCall(s, call));
    }
    if s.h.begun == AtHead {
      QuietKeepsPace(s, StartCall(s, call));
    }
  }

  lemma {:induction false} StepKeepsInv(s: State, a: Action)
    requires Inv(s)
    ensures Inv(Step(s, a))
  {
    hide TaskStep, CallerStep, StartCall, Inv;
    match a
    case TaskRuns(io) => TaskKeepsInv(s, io);
    case CallerRuns(io) => CallerKeepsInv(s, io);
    case Invoke(call) => CallKeepsInv(s, call);
  }

  /** The invariant holds after every schedule. */
  lemma {:induction false} RunKeepsInv(actions: seq<Action>)
    ensures Inv(Run(actions))
  {
    hide Step;
    if actions == [] {
    } else {
      RunKeepsInv(actions[..|actions| - 1]);
      StepKeepsInv(Run(actions[..|actions| - 1]), actions[|actions| - 1]);
    }
  }
}
