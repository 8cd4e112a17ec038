/**
 The player as its caller sees it: an operation is called, the two threads run in some interleaving until it
 returns, and between two calls only the task runs.
 */
module PlaybackCalls {
  import opened Common
  import opened PlaybackPolicy
  import opened PlaybackMachine
  import opened PlaybackInvariant
  import opened PlaybackTheorems
  import opened PlaybackRaces

  /** One step of one of the threads. */
  datatype Slice = TaskSlice(io: nat) | CallerSlice(io: nat)

  function Interleave(s: State, schedule: seq<Slice>): State
    decreases |schedule|
  {
    if schedule == [] then s else
      Interleave(match schedule[0] case TaskSlice(io) => TaskStep(s, io) case CallerSlice(io) => CallerStep(s, io),
                 schedule[1..])
  }

  // ---------- every call returns ----------

  /** Sends enqueue may still make. */
  function SendsLeft(c: Caller): nat {
    if !InEnqueue(c.pc) then 0
    else (MAX_NO_PROGRESS_ATTEMPTS + 1) * Max(0, |c.pcm| - c.sent) + Max(0, MAX_NO_PROGRESS_ATTEMPTS - c.attempts)
  }

  /** How far the caller is from its next send or from its return. */
  function EnqueuePlace(s: State): nat {
    match s.c.pc
    case EnqActive => 13
    case EnqInputDone => 12
    case EnqTotal => 11
    case EnqObserve => 10
    case EnqLoadMaximum => 9
    case EnqRaiseMaximum => if s.c.maximum == s.x.maximumQueued then 7 else 8
    case EnqLoopActive => 6
    case EnqLoopInputDone => 5
    case EnqLoopFailed => 4
    case EnqSend => 3
    case EnqCheckFailed => 2
    case _ => 1
  }

  function CancelPlace(c: Caller): nat {
    match c.pc
    case CanActive => 299
    case CanInputDone => 298
    case CanWait => 251 - Min(c.waits, 150)
    case CanPlaying => 30
    case CanDrained => 29
    case CanBusy => 28
    case CanReset => 27
    case _ => 1
  }

  function BeginPlace(pc: CallerPc): nat {
    match pc
    case BegActive => 300
    case BegReset => 26
    case BegInputDone => 25
    case BegPlaying => 24
    case BegDrained => 23
    case BegFailed => 22
    case BegMaximum => 21
    case BegUnderruns => 20
    case BegTotal => 19
    case FinActive => 2
    case Ready => 0
    case _ => 1
  }

  function Place(s: State): nat {
    if InEnqueue(s.c.pc) then EnqueuePlace(s)
    else if InCancel(s.c.pc) then CancelPlace(s.c)
    else BeginPlace(s.c.pc)
  }

  predicate Descends(s: State, t: State) {
    SendsLeft(t.c) < SendsLeft(s.c) || (SendsLeft(t.c) == SendsLeft(s.c) && Place(t) < Place(s))
  }

  lemma {:induction false} SendDescends(s: State)
    requires s.c.pc == EnqSend
    ensures Descends(s, SendStep(s, CAPACITY_BYTES))
  {
  }

  lemma {:induction false} EnqueueDescends(s: State)
    requires InEnqueue(s.c.pc)
    ensures Descends(s, EnqueueStep(s, CAPACITY_BYTES))
  {
    hide SendStep;
    if s.c.pc == EnqSend {
      SendDescends(s);
    }
  }

  lemma {:induction false} CancelLowers(s: State)
    requires InCancel(s.c.pc)
    ensures var t := CancelStep(s, CAPACITY_BYTES);
      && (InCancel(t.c.pc) || t.c.pc == Ready || t.c.pc == BegReset)
      && (InCancel(t.c.pc) ==> CancelPlace(t.c) < CancelPlace(s.c))
  {
  }

  lemma {:induction false} CancelDescends(s: State)
    requires InCancel(s.c.pc)
    ensures Descends(s, CancelStep(s, CAPACITY_BYTES))
  {
    hide CancelStep;
    CancelLowers(s);
  }

  lemma {:induction false} BeginLowers(s: State)
    requires InBeginTurn(s.c.pc) && s.c.pc != BegStart
    ensures var pc := BeginStep(s, CAPACITY_BYTES).c.pc;
      && BeginPlace(pc) < BeginPlace(s.c.pc)
      && (InBeginTurn(pc) || pc == Ready || (pc == CanActive && s.c.pc == BegActive))
  {
    hide PositionOf;
  }

  lemma {:induction false} BeginDescends(s: State)
    requires InBeginTurn(s.c.pc) && s.c.pc != BegStart
    ensures Descends(s, BeginStep(s, CAPACITY_BYTES))
  {
    hide BeginStep;
    BeginLowers(s);
  }

  lemma {:induction false} CallerDescends(s: State)
    requires s.c.pc != Ready
    ensures Descends(s, CallerStep(s, CAPACITY_BYTES))
  {
    hide EnqueueStep, CancelStep, BeginStep;
    if InEnqueue(s.c.pc) {
      EnqueueDescends(s);
    } else if InCancel(s.c.pc) {
      CancelDescends(s);
    } else if InBeginTurn(s.c.pc) && s.c.pc != BegStart {
      BeginDescends(s);
    }
  }

  /** The caller runs on until its operation returns. */
  function ToReady(s: State): (r: State)
    ensures r.c.pc == Ready
    decreases SendsLeft(s.c), Place(s)
  {
    if s.c.pc == Ready then s else CallerDescends(s); ToReady(CallerStep(s, CAPACITY_BYTES))
  }

  /** A call from start to return, interleaved as the schedule says. */
  function Called(s: State, call: Call, schedule: seq<Slice>): (r: State)
    ensures r.c.pc == Ready
  {
    ToReady(Interleave(StartCall(s, call), schedule))
  }

  // ---------- what a call leaves behind ----------

  /** Between two calls only the task runs, and it neither accepts bytes nor cancels. */
  lemma {:induction false} RestKeeps(s: State, schedule: seq<Slice>)
    requires Inv(s) && s.c.pc == Ready
    ensures var t := Interleave(s, schedule);
      Inv(t) && t.c == s.c && t.h.accepted == s.h.accepted && t.h.cancelled == s.h.cancelled
    decreases |schedule|
  {
    hide Inv, TaskStep;
    if schedule != [] {
      match schedule[0]
      case TaskSlice(io) =>
        TaskKeepsInv(s, io);
        TaskStepFrame(s, io);
        RestKeeps(TaskStep(s, io), schedule[1..]);
      case CallerSlice(io) => RestKeeps(s, schedule[1..]);
    }
  }

  /** Why an enqueue may fail: the turn is over or failing, its input is finished, or eight sends took nothing. */
  predicate Refused(s: State, origin: State) {
    !s.x.active || s.x.inputDone || s.t.pc == FailDeactivate || origin.x.failed || s.c.attempts == 8
  }

  predicate Refusing(s: State, origin: State) {
    && (s.x.failed ==> origin.x.failed || s.t.pc == FailDeactivate || !s.x.active)
    && (s.c.pc.EnqCheckFailed? || s.c.pc.EnqMarkFailed? ==> Refused(s, origin))
  }

  lemma {:induction false} RefusedOn(s: State, io: nat, origin: State)
    requires InEnqueue(s.c.pc) && Refusing(s, origin) && EnqueueInv(s)
    ensures var t := EnqueueStep(s, io);
      && (InEnqueue(t.c.pc) ==> Refusing(t, origin))
      && (t.c.pc == Ready && !t.c.result ==> Refused(t, origin))
      && (s.x.failed ==> t.x.failed)
  {
    hide SendStep;
    match s.c.pc
    case EnqSend => SendRefused(s, io, origin);
    case EnqActive =>
    case EnqRaiseMaximum =>
    case EnqCheckFailed =>
    case _ =>
  }

  lemma {:induction false} SendRefused(s: State, io: nat, origin: State)
    requires s.c.pc.EnqSend? && Refusing(s, origin) && EnqueueInv(s)
    ensures var t := SendStep(s, io); InEnqueue(t.c.pc) && Refusing(t, origin) && t.x.failed == s.x.failed
  {
  }

  lemma {:induction false} TaskRefuses(s: State, io: nat, origin: State)
    ensures Refusing(s, origin) ==> Refusing(TaskStep(s, io), origin)
    ensures Refused(s, origin) ==> Refused(TaskStep(s, io), origin)
  {
    hide WaitStep, DrainStep, ReceiveStep, WriteStep;
    TaskStepFrame(s, io);
    ReceiveKeepsFailed(s, io);
    DrainKeepsFailed(s);
    WriteFails(s, io);
  }

  lemma {:induction false} WriteFails(s: State, io: nat)
    ensures WaitStep(s).x.failed == s.x.failed
    ensures var t := WriteStep(s, io);
      && (t.x.failed ==> s.x.failed || t.t.pc == FailDeactivate)
      && (s.t.pc == FailDeactivate ==> !t.x.active)
  {
  }

  /** What holds from the start of a call to its return, against the state `origin` it was made in. */
  predicate Serving(s: State, call: Call, origin: State) {
    match call
    case Enqueue(pcm) =>
      && s.h.cancelled == origin.h.cancelled && (origin.x.failed ==> s.x.failed)
      && (if s.c.pc != Ready
          then InEnqueue(s.c.pc) && s.c.pcm == pcm && s.h.base == origin.h.accepted && Refusing(s, origin)
          else if s.c.result then s.h.accepted == origin.h.accepted + pcm
          else pcm == [] || Refused(s, origin))
    case BeginTurn =>
      if s.c.pc == Ready then s.c.result ==> !s.h.cancelled && s.h.accepted == []
      else InBeginTurn(s.c.pc) || (InCancel(s.c.pc) && s.c.beginning)
    case Cancel =>
      && (s.c.pc == Ready || (InCancel(s.c.pc) && !s.c.beginning)) && s.h.accepted == origin.h.accepted
      && (s.c.pc != CanActive ==> s.h.cancelled && !s.x.active && (s.c.pc != CanInputDone ==> s.x.inputDone))
    case FinishInput =>
      && s.h.cancelled == origin.h.cancelled && s.h.accepted == origin.h.accepted
      && (origin.x.failed ==> s.x.failed) && (s.x.active ==> origin.x.active)
      && (s.c.pc == Ready || InFinish(s.c.pc)) && (s.c.pc == Ready ==> s.x.inputDone || !s.x.active)
    case ReportFailure(isFailure) =>
      && s.h.cancelled == origin.h.cancelled && s.h.accepted == origin.h.accepted && s.c.pc == Ready
      && (isFailure ==> s.x.failed)
  }

  lemma {:induction false} StartServes(s: State, call: Call)
    requires s.c.pc == Ready
    ensures Serving(StartCall(s, call), call, s)
  {
  }

  lemma {:induction false} ReceiveKeepsFailed(s: State, io: nat)
    ensures ReceiveStep(s, io).x.failed == s.x.failed
  {
    match s.t.pc
    case CheckActive =>
    case StarvedDone =>
    case StarvedEmpty =>
    case _ =>
  }

  lemma {:induction false} DrainKeepsFailed(s: State)
    ensures DrainStep(s).x.failed == s.x.failed
  {
  }

  lemma {:induction false} WriteKeepsFailed(s: State, io: nat)
    ensures WaitStep(s).x.failed == s.x.failed && (s.x.failed ==> WriteStep(s, io).x.failed)
  {
  }

  lemma {:induction false} TaskKeepsFailed(s: State, io: nat)
    ensures s.x.failed ==> TaskStep(s, io).x.failed
  {
    hide WaitStep, DrainStep, ReceiveStep, WriteStep;
    ReceiveKeepsFailed(s, io);
    DrainKeepsFailed(s);
    WriteKeepsFailed(s, io);
  }

  lemma {:induction false} TaskServes(s: State, call: Call, origin: State, io: nat)
    requires Serving(s, call, origin)
    ensures Serving(TaskStep(s, io), call, origin)
  {
    hide TaskStep;
    TaskStepFrame(s, io);
    TaskKeepsFailed(s, io);
    TaskRefuses(s, io, origin);
  }

  lemma {:induction false} EnqueueServes(s: State, io: nat)
    requires EnqueueInv(s) && InEnqueue(s.c.pc)
    ensures var t := EnqueueStep(s, io);
      && t.h.cancelled == s.h.cancelled && t.h.base == s.h.base && t.c.pcm == s.c.pcm
      && (t.c.pc == Ready || InEnqueue(t.c.pc))
      && (t.c.pc == Ready && t.c.result ==> t.h.accepted == s.h.base + s.c.pcm)
  {
    hide EnqueueInv, EnqueueStep;
    if s.c.pc == EnqSend {
      SendServes(s, io);
    } else {
      EnqueueQuiet(s, io);
      KeepsInput(s, io);
      if EnqueueStep(s, io).c.pc == Ready {
        EnqueueReturns(s, io);
        WholeInput(s);
      }
    }
  }

  lemma {:induction false} WholeInput(s: State)
    requires EnqueueInv(s) && InEnqueue(s.c.pc)
    ensures s.c.sent == |s.c.pcm| ==> s.h.accepted == s.h.base + s.c.pcm
  {
    if s.c.sent == |s.c.pcm| {
      assert s.c.pcm[..s.c.sent] == s.c.pcm;
    }
  }

  lemma {:induction false} KeepsInput(s: State, io: nat)
    requires AroundSend(s.c.pc)
    ensures EnqueueStep(s, io).c.pcm == s.c.pcm
  {
    hide SendStep;
  }

  lemma {:induction false} SendServes(s: State, io: nat)
    requires s.c.pc == EnqSend
    ensures var t := EnqueueStep(s, io);
      && t.h.cancelled == s.h.cancelled && t.h.base == s.h.base && t.c.pcm == s.c.pcm
      && InEnqueue(t.c.pc)
  {
  }

  lemma {:induction false} CancelServes(s: State, io: nat)
    requires InCancel(s.c.pc)
    ensures var t := CancelStep(s, io);
      && t.c.beginning == s.c.beginning && t.c.pc != CanActive && (t.c.pc == CanInputDone <==> s.c.pc == CanActive)
      && (s.h.cancelled || s.c.pc == CanActive ==> t.h.cancelled) && t.h.accepted == s.h.accepted
      && (s.x.inputDone || s.c.pc == CanInputDone ==> t.x.inputDone)
      && (!s.x.active || s.c.pc == CanActive ==> !t.x.active)
      && (InCancel(t.c.pc) || t.c.pc == if s.c.beginning then BegReset else Ready)
  {
  }

  lemma {:induction false} BeginServes(s: State, io: nat)
    requires InBeginTurn(s.c.pc) && s.c.pc != BegStart
    ensures var t := BeginStep(s, io);
      || (t.c.pc == Ready && !t.c.result)
      || InBeginTurn(t.c.pc)
      || (t.c.pc == CanActive && t.c.beginning)
  {
    hide PositionOf;
  }

  lemma {:induction false} FinishServes(s: State)
    requires InFinish(s.c.pc)
    ensures var t := FinishStep(s);
      && t.h.cancelled == s.h.cancelled && t.h.accepted == s.h.accepted && (t.c.pc == Ready || InFinish(t.c.pc))
      && (t.c.pc == Ready ==> t.x.inputDone || !t.x.active)
      && t.x.failed == s.x.failed && t.x.active == s.x.active
  {
  }

  lemma {:induction false} BeginTurnServes(s: State, origin: State, io: nat)
    requires Serving(s, BeginTurn, origin) && s.c.pc != Ready
    ensures Serving(CallerStep(s, io), BeginTurn, origin)
  {
    hide EnqueueStep, CancelStep, BeginStep, FinishStep;
    if InCancel(s.c.pc) {
      CancelServes(s, io);
    } else if s.c.pc != BegStart {
      BeginServes(s, io);
    }
  }

  lemma {:induction false} CallerServes(s: State, call: Call, origin: State, io: nat)
    requires Serving(s, call, origin) && EnqueueInv(s)
    ensures Serving(CallerStep(s, io), call, origin)
  {
    hide EnqueueStep, CancelStep, BeginStep, FinishStep, ActivateStep, EnqueueInv, Refusing, Refused;
    if s.c.pc != Ready {
      match call
      case Enqueue(_) =>
        EnqueueServes(s, io);
        RefusedOn(s, io, origin);
      case BeginTurn => BeginTurnServes(s, origin, io);
      case Cancel => CancelServes(s, io);
      case FinishInput => FinishServes(s);
      case ReportFailure(_) =>
    }
  }

  lemma {:induction false} InterleaveServes(s: State, schedule: seq<Slice>, call: Call, origin: State)
    requires Inv(s) && Serving(s, call, origin)
    ensures var t := Interleave(s, schedule); Inv(t) && Serving(t, call, origin)
    decreases |schedule|
  {
    hide TaskStep, CallerStep, Serving, TaskInv, ControlInv, CountInv, BeginInv, TurnInv, PaceInv, EnqueueInv;
    if schedule != [] {
      match schedule[0]
      case TaskSlice(io) =>
        TaskKeepsInv(s, io);
        TaskServes(s, call, origin, io);
        InterleaveServes(TaskStep(s, io), schedule[1..], call, origin);
      case CallerSlice(io) =>
        CallerKeepsInv(s, io);
        CallerServes(s, call, origin, io);
        InterleaveServes(CallerStep(s, io), schedule[1..], call, origin);
    }
  }

  lemma {:induction false} ToReadyServes(s: State, call: Call, origin: State)
    requires Inv(s) && Serving(s, call, origin)
    ensures var t := ToReady(s); Inv(t) && Serving(t, call, origin)
    decreases SendsLeft(s.c), Place(s)
  {
    hide CallerStep, Serving, TaskInv, ControlInv, CountInv, BeginInv, TurnInv, PaceInv, EnqueueInv, SendsLeft, Place;
    if s.c.pc != Ready {
      CallerDescends(s);
      CallerKeepsInv(s, CAPACITY_BYTES);
      CallerServes(s, call, origin, CAPACITY_BYTES);
      ToReadyServes(CallerStep(s, CAPACITY_BYTES), call, origin);
    }
  }

  /**
   Whatever the interleaving, a call returns with the player's invariant: a turn that was begun is live and empty;
   an enqueue that reports success accepted its whole input, and one that does not was given nothing, finds the turn
   over or failing or its input finished, or saw eight sends in a row take nothing; a cancelled turn is over with its
   input finished; and finishInput
   finishes the input of a turn that goes on.
   */
  lemma {:induction false} CallServes(s: State, call: Call, schedule: seq<Slice>)
    requires Inv(s) && s.c.pc == Ready
    ensures var t := Called(s, call, schedule); Inv(t) && t.c.pc == Ready && Serving(t, call, s)
  {
    hide Inv, StartCall, Interleave, ToReady, Serving;
    CallKeepsInv(s, call);
    StartServes(s, call);
    InterleaveServes(StartCall(s, call), schedule, call, s);
    ToReadyServes(Interleave(StartCall(s, call), schedule), call, s);
  }

  // ---------- calls beside a task that stands still ----------

  lemma {:induction false} ReadyStays(s: State, n: nat)
    requires s.c.pc == Ready
    ensures CallerAlone(s, n) == s
    decreases n
  {
    if n > 0 {
      ReadyStays(s, n - 1);
    }
  }

  lemma {:induction false} ToReadySkips(s: State, n: nat)
    ensures ToReady(s) == ToReady(CallerAlone(s, n))
    decreases n
  {
    hide CallerStep;
    if s.c.pc == Ready {
      ReadyStays(s, n);
    } else if n > 0 {
      ToReadySkips(CallerStep(s, CAPACITY_BYTES), n - 1);
    }
  }

  lemma {:induction false} CallAlone(s: State, call: Call)
    ensures Called(s, call, []) == ToReady(StartCall(s, call))
  {
    hide ToReady, StartCall;
  }

  lemma {:induction false} OpenAlone(s: State)
    requires s.c.pc == BegActive && !s.x.active && !s.x.busy
    ensures var t := CallerAlone(CallerAlone(CallerAlone(s, 3), 3), 3);
      && ToReady(s) == ToReady(t)
      && t.c.pc == BegInputDone && t.t == s.t && t.x.buffer == []
  {
    hide CallerStep, CallerAlone, ToReady;
    BeginToWait(s);
    ToReadySkips(s, 3);
    var s1 := CallerAlone(s, 3);
    WaitToBusy(s1);
    ToReadySkips(s1, 3);
    var s2 := CallerAlone(s1, 3);
    BusyToDone(s2);
    ToReadySkips(s2, 3);
  }

  lemma {:induction false} GoLiveAlone(s: State)
    requires s.c.pc == BegInputDone && s.x.buffer == []
    ensures var t := ToReady(s); Fresh(t) && t.c.result && t.t == s.t && !t.x.drained
  {
    hide CallerStep, CallerAlone, ToReady, PositionOf;
    BeginStores(s);
    ToReadySkips(s, 3);
    var s1 := CallerAlone(s, 3);
    BeginResets(s1);
    ToReadySkips(s1, 3);
    var s2 := CallerAlone(s1, 3);
    BeginGoesLive(s2);
    ToReadySkips(s2, 3);
    StaysReady(CallerAlone(s2, 3));
  }

  lemma {:induction false} StaysReady(s: State)
    requires s.c.pc == Ready
    ensures ToReady(s) == s
  {
  }

  lemma {:induction false} BeginAlone(s: State)
    requires s.c.pc == Ready && !s.x.active && !s.x.busy
    ensures var t := Called(s, BeginTurn, []); Fresh(t) && t.c.result && t.t == s.t && !t.x.drained
  {
    hide CallerStep, CallerAlone, ToReady;
    CallAlone(s, BeginTurn);
    var s1 := CallerAt(s, BegActive);
    OpenAlone(s1);
    GoLiveAlone(CallerAlone(CallerAlone(CallerAlone(s1, 3), 3), 3));
  }

  lemma {:induction false} SendAlone(s: State)
    requires s.c.pc == EnqActive && s.x.active && !s.x.inputDone && !s.x.failed && s.x.buffer == []
    requires s.c.sent == 0 && 0 < |s.c.pcm| <= CAPACITY_BYTES && s.h.accepted == [] && s.x.maximumQueued == 0
    ensures var t := ToReady(s);
      && t.c.result && t.t == s.t && t.h.accepted == s.c.pcm && t.h.played == s.h.played
      && t.x.active && !t.x.inputDone && !t.x.failed && t.x.drained == s.x.drained
  {
    hide CallerStep, CallerAlone, ToReady;
    EnqueueToLoop(s);
    ToReadySkips(s, 3);
    var s1 := CallerAlone(s, 3);
    EnqueueToSent(s1);
    ToReadySkips(s1, 3);
    var s2 := CallerAlone(s1, 3);
    EnqueueToRaise(s2);
    ToReadySkips(s2, 3);
    var s3 := CallerAlone(s2, 3);
    EnqueueEnds(s3);
    ToReadySkips(s3, 3);
    StaysReady(CallerAlone(s3, 3));
  }

  lemma {:induction false} EnqueueAlone(s: State, pcm: seq<byte>)
    requires Fresh(s) && 0 < |pcm| <= CAPACITY_BYTES
    ensures var t := Called(s, Enqueue(pcm), []);
      && t.c.result && t.t == s.t && t.h.accepted == pcm && t.h.played == s.h.played
      && t.x.active && !t.x.inputDone && !t.x.failed && t.x.drained == s.x.drained
  {
    hide CallerStep, CallerAlone, ToReady;
    CallAlone(s, Enqueue(pcm));
    SendAlone(StartCall(s, Enqueue(pcm)));
  }
}
