/** What cancel stops, and what it leaves when the playback task is at rest. */
module PlaybackCancel {
  import opened Common
  import opened PlaybackPolicy
  import opened PlaybackMachine
  import opened PlaybackInvariant
  import opened PlaybackRaces
  import opened PlaybackCalls
  import opened PlaybackStarting

  /** The turn is over, and the caller is beginning no other. */
  predicate Over(s: State) {
    !s.x.active && !InBeginTurn(s.c.pc) && !(InCancel(s.c.pc) && s.c.beginning)
  }

  lemma {:induction false} CancelStaysOver(s: State, io: nat)
    requires InCancel(s.c.pc) && !s.c.beginning
    ensures var t := CancelStep(s, io);
      && (s.x.active || !t.x.active) && t.t == s.t && t.h.played == s.h.played
      && (t.c.pc == Ready || InCancel(t.c.pc)) && !t.c.beginning
  {
  }

  lemma {:induction false} CallerStaysOver(s: State, io: nat)
    requires Over(s)
    ensures var t := CallerStep(s, io); Over(t) && t.t == s.t && t.h.played == s.h.played
  {
    hide EnqueueStep, BeginStep, ActivateStep, CancelStep;
    if InEnqueue(s.c.pc) {
      EnqueueAdds(s, io);
    } else if InCancel(s.c.pc) {
      CancelStaysOver(s, io);
    }
  }

  lemma {:induction false} CallStaysOver(s: State, call: Call)
    requires Over(s) && call != BeginTurn
    ensures var t := StartCall(s, call); Over(t) && t.t == s.t && t.h.played == s.h.played
  {
  }

  /** A task whose turn is over begins no write. */
  lemma {:induction false} TaskBeginsNoWrite(s: State, io: nat)
    requires !s.x.active
    ensures var t := TaskStep(s, io);
      t.t.pc != Write && (s.t.pc != Write ==> t.h.played == s.h.played) && t.h.played <= s.h.played + s.t.chunk
  {
    hide WaitStep, DrainStep, ReceiveStep, WriteStep;
    assert s.h.played <= s.h.played + s.t.chunk;
    if InWait(s.t.pc) {
      WaitBeginsNoWrite(s);
    } else if InWrite(s.t.pc) {
      WriteEnds(s, io);
    } else {
      ReceiveBeginsNoWrite(s, io);
    }
  }

  lemma {:induction false} WaitBeginsNoWrite(s: State)
    requires InWait(s.t.pc)
    ensures WaitStep(s).t.pc != Write && WaitStep(s).h.played == s.h.played
  {
  }

  lemma {:induction false} WriteEnds(s: State, io: nat)
    requires InWrite(s.t.pc)
    ensures var t := WriteStep(s, io);
      t.t.pc != Write && (s.t.pc != Write ==> t.h.played == s.h.played) && t.h.played <= s.h.played + s.t.chunk
  {
  }

  lemma {:induction false} ReceiveBeginsNoWrite(s: State, io: nat)
    requires !s.x.active && !InWait(s.t.pc) && !InWrite(s.t.pc)
    ensures DrainStep(s).h.played == s.h.played == ReceiveStep(s, io).h.played
    ensures InDrain(s.t.pc) ==> DrainStep(s).t.pc != Write
    ensures !InDrain(s.t.pc) ==> ReceiveStep(s, io).t.pc != Write
  {
    if InDrain(s.t.pc) {
    } else {
      match s.t.pc
      case CheckActive =>
      case StarvedDone =>
      case StarvedEmpty =>
      case _ =>
    }
  }

  /**
   Once a turn is over, cancelled or failed or drained, whatever the schedule does but begin another: at most the chunk
   whose write the task has already decided on is still played, and otherwise nothing.
   */
  lemma {:induction false} NothingPlaysOn(s: State, actions: seq<Action>)
    requires Over(s) && forall i :: 0 <= i < |actions| ==> actions[i] != Invoke(BeginTurn)
    ensures var t := Continue(s, actions);
      && !t.x.active
      && (s.t.pc != Write ==> t.h.played == s.h.played)
      && t.h.played <= s.h.played + (if s.t.pc == Write then s.t.chunk else [])
    decreases |actions|
  {
    hide TaskStep, CallerStep, StartCall, Over;
    if actions == [] {
      OverMeans(s);
    } else {
      assert actions[0] != Invoke(BeginTurn);
      match actions[0]
      case TaskRuns(io) =>
        OverMeans(s);
        TaskBeginsNoWrite(s, io);
        TaskStepFrame(s, io);
        OverBeside(s, TaskStep(s, io));
        NothingPlaysOn(TaskStep(s, io), actions[1..]);
      case CallerRuns(io) =>
        CallerStaysOver(s, io);
        NothingPlaysOn(CallerStep(s, io), actions[1..]);
      case Invoke(call) =>
        CallStaysOver(s, call);
        NothingPlaysOn(StartCall(s, call), actions[1..]);
    }
  }

  lemma {:induction false} OverMeans(s: State)
    requires Over(s)
    ensures !s.x.active && s.h.played + [] == s.h.played
  {
  }

  lemma {:induction false} OverBeside(s: State, t: State)
    requires Over(s) && t.c == s.c && (t.x.active ==> s.x.active)
    ensures Over(t)
  {
  }

  /** cancel looks at busy_ again and again while the task is busy, and gives up after 150 looks. */
  lemma {:induction false} CancelWaits(s: State, n: nat)
    requires s.c.pc == CanWait && s.x.busy && s.c.waits <= 150 && s.c.waits + n <= 151
    ensures var t := CallerAlone(s, n);
      && t.c.pc == (if s.c.waits + n <= 150 then CanWait else CanPlaying)
      && t.c.waits == Min(s.c.waits + n, 150) && t.x == s.x
    decreases n
  {
    hide EnqueueStep, BeginStep, ActivateStep;
    if n > 0 {
      var t := CallerStep(s, CAPACITY_BYTES);
      assert CallerAlone(s, n) == CallerAlone(t, n - 1);
      if t.c.pc == CanWait {
        CancelWaits(t, n - 1);
      } else {
        assert n == 1;
      }
    }
  }

  // ---------- cancel beside a task at rest ----------

  lemma {:induction false} StopsInput(s: State)
    requires s.c.pc == CanActive
    ensures var t := CallerAlone(s, 2);
      t == s.(c := s.c.(pc := CanWait, waits := 0), x := s.x.(active := false, inputDone := true),
              h := s.h.(cancelled := true))
  {
    hide EnqueueStep, BeginStep, ActivateStep;
    CallerTwice(s);
  }

  lemma {:induction false} StopsOutput(s: State)
    requires s.c.pc == CanWait && !s.x.busy
    ensures var t := CallerAlone(s, 3);
      t == s.(c := s.c.(pc := CanBusy), x := s.x.(playing := false, drained := false))
  {
    hide EnqueueStep, BeginStep, ActivateStep;
    CallerThrice(s);
  }

  lemma {:induction false} EmptiesBuffer(s: State)
    requires s.c.pc == CanBusy && !s.x.busy && !s.c.beginning
    ensures CallerAlone(s, 2) == s.(c := s.c.(pc := Ready), x := s.x.(buffer := []))
  {
    hide EnqueueStep, BeginStep, ActivateStep;
    CallerTwice(s);
  }

  /** Beside a task that is not busy, cancel ends the turn, its input and its output, and empties the buffer. */
  lemma {:induction false} CancelAlone(s: State)
    requires s.c.pc == Ready && !s.x.busy
    ensures var t := Called(s, Cancel, []);
      && t.x == s.x.(active := false, inputDone := true, playing := false, drained := false, buffer := [])
      && t.t == s.t && t.h == s.h.(cancelled := true)
  {
    hide CallerStep, CallerAlone, ToReady;
    CallAlone(s, Cancel);
    var s0 := StartCall(s, Cancel);
    StopsInput(s0);
    ToReadySkips(s0, 2);
    var s1 := CallerAlone(s0, 2);
    StopsOutput(s1);
    ToReadySkips(s1, 3);
    var s2 := CallerAlone(s1, 3);
    EmptiesBuffer(s2);
    ToReadySkips(s2, 2);
    ReadyReturns(CallerAlone(s2, 2));
  }

  lemma {:induction false} ReadyReturns(s: State)
    requires s.c.pc == Ready
    ensures ToReady(s) == s
  {
  }
}
