/**
 The two-thread PCM player as a state machine. The Arduino loop (the caller)
 and the pinned playback task interleave freely; one step is one access to an
 atomic variable, one stream-buffer call, or one I2S write, together with the
 thread-local work up to the next such access. The numbers in the program
 counters' comments are lines of buffered_pcm_playback.h.

 The stream buffer is a bounded FIFO with atomic, possibly partial, send and
 receive; `io` is the environment's choice of how far such a call gets.
 */
module PlaybackMachine {
  import opened Common
  import opened PlaybackPolicy

  datatype TaskPc =
    | LoopHead            // 150  load active_
    | Sample              // 155  bytes available
    | CheckPlaying        // 156  load playing_
    | CheckStart          // 158  load input_done_
    | StartPlaying        // 159  store playing_
    | CheckEmptyDone      // 160  load input_done_
    | DrainStopPlaying    // 142  store playing_
    | DrainMark           // 143  store drained_
    | DrainDeactivate     // 144  store active_
    | SetBusy             // 169  store busy_
    | Receive             // 170  stream-buffer receive
    | CheckActive         // 172  load active_
    | AbandonChunk        // 173  store busy_
    | Starved             // 177  store busy_
    | StarvedDone         // 178  load input_done_
    | StarvedEmpty        // 178  bytes available
    | PauseForData        // 181  store playing_
    | CountUnderrun       // 182  add to underrun_count_
    | Write               // 187  I2S write
    | ClearBusy           // 188  store busy_
    | FailFlag            // 191  store failed_
    | FailDeactivate      // 192  store active_
    | FailStopPlaying     // 193  store playing_
    | AfterWriteDone      // 196  load input_done_
    | AfterWriteEmpty     // 196  bytes available

  datatype CallerPc =
    | Ready
    | EnqActive           // 60   load active_
    | EnqInputDone        // 61   load input_done_
    | EnqLoopActive       // 67   load active_
    | EnqLoopInputDone    // 68   load input_done_
    | EnqLoopFailed       // 68   load failed_
    | EnqSend             // 69   stream-buffer send
    | EnqTotal            // 78   add to total_enqueued_bytes_
    | EnqObserve          // 79   bytes available
    | EnqLoadMaximum      // 135  load maximum_queued_bytes_
    | EnqRaiseMaximum     // 136  compare-exchange maximum_queued_bytes_
    | EnqCheckFailed      // 82   load failed_
    | EnqMarkFailed       // 84   store failed_
    | FinActive           // 92   load active_
    | FinStore            // 92   store input_done_
    | CanActive           // 96   store active_
    | CanInputDone        // 97   store input_done_
    | CanWait             // 98   load busy_
    | CanPlaying          // 101  store playing_
    | CanDrained          // 102  store drained_
    | CanBusy             // 103  load busy_
    | CanReset            // 103  stream-buffer reset
    | BegActive           // 38   load active_
    | BegReset            // 43   stream-buffer reset
    | BegInputDone        // 47   store input_done_
    | BegPlaying          // 48   store playing_
    | BegDrained          // 49   store drained_
    | BegFailed           // 50   store failed_
    | BegMaximum          // 52   store maximum_queued_bytes_
    | BegUnderruns        // 53   store underrun_count_
    | BegTotal            // 54   store total_enqueued_bytes_
    | BegStart            // 55   store active_

  /** The atomics both threads touch, and the stream buffer. */
  datatype Shared = Shared(active: bool, inputDone: bool, playing: bool, drained: bool, failed: bool,
                           busy: bool, maximumQueued: nat, underruns: nat, totalEnqueued: nat,
                           buffer: seq<byte>)

  datatype Task = Task(pc: TaskPc, available: nat, chunk: seq<byte>, written: nat)

  datatype Caller = Caller(pc: CallerPc, beginning: bool, pcm: seq<byte>, sent: nat, got: nat,
                           attempts: nat, waits: nat, observed: nat, maximum: nat, result: bool)

  /** Where the task was when line 47 opened the input of a new turn. */
  datatype Position =
    | AtHead                 // waiting for a turn
    | Harmless               // on its way there, with nothing of the earlier turn left to do
    | Harmful                // about to end or fail a turn, or holding a chunk of the earlier one

  function PositionOf(t: Task): Position {
    if t.pc.LoopHead? then AtHead
    else if
      || t.pc.DrainStopPlaying? || t.pc.DrainMark? || t.pc.DrainDeactivate?
      || t.pc.StarvedEmpty? || t.pc.AfterWriteEmpty?
      || t.pc.FailFlag? || t.pc.FailDeactivate?
      || t.pc.Write? || (t.pc.CheckActive? && t.chunk != []) || (t.pc.ClearBusy? && t.written != |t.chunk|)
    then Harmful
    else Harmless
  }

  /** What happened in the current turn. No step reads it. */
  datatype History = History(
    accepted: seq<byte>,     // bytes the stream buffer took
    played: seq<byte>,       // bytes the I2S bus took
    policy: Policy,          // the policy driven by the same events
    base: seq<byte>,         // `accepted` when the current enqueue began
    sends: nat,              // stream-buffer sends of the current enqueue
    mark: nat,               // |accepted| at the task's last sample in this turn
    markDone: bool,          // input_done_ at that sample
    early: bool,             // the drain was decided at line 160
    cancelled: bool,         // cancel() has begun, or no turn was started yet
    ioFailed: bool,          // an I2S write was short
    found: Position,         // where beginTurn found the task at line 47
    begun: Position)         // where the current turn was begun

  datatype State = State(x: Shared, t: Task, c: Caller, h: History)

  const INITIAL: State := State(
    Shared(false, false, false, false, false, false, 0, 0, 0, []),
    Task(LoopHead, 0, [], 0),
    Caller(Ready, false, [], 0, 0, 0, 0, 0, 0, false),
    History([], [], FRESH_POLICY, [], 0, 0, false, false, true, false, AtHead, AtHead))

  /** How many items a stream-buffer or I2S call moves when at most `limit` are possible. */
  function Moved(io: nat, limit: nat): (n: nat)
    ensures n <= limit
  {
    Min(io, limit)
  }

  /** A receive returns nothing only from an empty buffer. */
  function Received(io: nat, length: nat): (n: nat)
    ensures n <= length && n <= WRITE_CHUNK_BYTES && (n == 0 <==> length == 0)
  {
    if length == 0 then 0 else Max(1, Moved(io, Min(length, WRITE_CHUNK_BYTES)))
  }

  /** How many bytes a send may move: the free space, and no more than enqueue still has. */
  function Sendable(s: State): nat {
    if s.c.sent <= |s.c.pcm| && |s.x.buffer| <= CAPACITY_BYTES
    then Min(|s.c.pcm| - s.c.sent, CAPACITY_BYTES - |s.x.buffer|) else 0
  }

  function TaskAt(s: State, pc: TaskPc): State {
    s.(t := s.t.(pc := pc))
  }

  function CallerAt(s: State, pc: CallerPc): State {
    s.(c := s.c.(pc := pc))
  }

  /** The caller's operation returns. */
  function Return(s: State, result: bool): State {
    s.(c := s.c.(pc := Ready, result := result))
  }

  /** Lines 150-167: wait for a turn, then for enough data to start. */
  function WaitStep(s: State): State {
    match s.t.pc
    case LoopHead => if s.x.active then TaskAt(s, Sample) else s
    case Sample =>
      s.(t := s.t.(available := |s.x.buffer|, pc := CheckPlaying),
         h := s.h.(mark := |s.h.accepted|, markDone := s.x.inputDone))
    case CheckPlaying =>
      TaskAt(s, if s.x.playing then SetBusy
                else if s.t.available >= START_WATERMARK_BYTES then StartPlaying else CheckStart)
    case CheckStart =>
      TaskAt(s, if s.x.inputDone && s.t.available > 0 then StartPlaying else CheckEmptyDone)
    case StartPlaying =>
      TaskAt(s, SetBusy).(x := s.x.(playing := true), h := s.h.(policy := s.h.policy.OnPlaybackStarted()))
    case CheckEmptyDone =>
      if s.x.inputDone && s.t.available == 0 then TaskAt(s, DrainStopPlaying).(h := s.h.(early := true))
      else TaskAt(s, LoopHead)
    case _ => s
  }

  /** Lines 141-145: finishDrain. */
  function DrainStep(s: State): State {
    match s.t.pc
    case DrainStopPlaying => TaskAt(s, DrainMark).(x := s.x.(playing := false))
    case DrainMark => TaskAt(s, DrainDeactivate).(x := s.x.(drained := true))
    case DrainDeactivate => TaskAt(s, LoopHead).(x := s.x.(active := false))
    case _ => s
  }

  /** Lines 169-185: take a chunk; an empty one is a drain or an underrun. */
  function ReceiveStep(s: State, io: nat): State {
    match s.t.pc
    case SetBusy => TaskAt(s, Receive).(x := s.x.(busy := true))
    case Receive =>
      var n := Received(io, |s.x.buffer|);
      s.(t := s.t.(chunk := s.x.buffer[..n], pc := CheckActive), x := s.x.(buffer := s.x.buffer[n..]))
    case CheckActive =>
      TaskAt(s, if !s.x.active then AbandonChunk else if s.t.chunk == [] then Starved else Write)
    case AbandonChunk => TaskAt(s, LoopHead).(x := s.x.(busy := false))
    case Starved => TaskAt(s, StarvedDone).(x := s.x.(busy := false))
    case StarvedDone => TaskAt(s, if s.x.inputDone then StarvedEmpty else PauseForData)
    case StarvedEmpty =>
      if s.x.buffer == [] then TaskAt(s, DrainStopPlaying).(h := s.h.(early := false))
      else TaskAt(s, PauseForData)
    case PauseForData =>
      TaskAt(s, CountUnderrun).(x := s.x.(playing := false), h := s.h.(policy := s.h.policy.OnUnderrun()))
    case CountUnderrun => TaskAt(s, LoopHead).(x := s.x.(underruns := s.x.underruns + 1))
    case _ => s
  }

  /** Lines 187-198: write the chunk; a short write ends the turn as failed. */
  function WriteStep(s: State, io: nat): State {
    match s.t.pc
    case Write =>
      var n := Moved(io, |s.t.chunk|);
      s.(t := s.t.(written := n, pc := ClearBusy),
         h := s.h.(played := s.h.played + s.t.chunk[..n], ioFailed := n != |s.t.chunk|,
                   policy := s.h.policy.OnConsumed(|s.t.chunk|)))
    case ClearBusy =>
      TaskAt(s, if s.t.written != |s.t.chunk| then FailFlag else AfterWriteDone).(x := s.x.(busy := false))
    case FailFlag => TaskAt(s, FailDeactivate).(x := s.x.(failed := true))
    case FailDeactivate => TaskAt(s, FailStopPlaying).(x := s.x.(active := false))
    case FailStopPlaying => TaskAt(s, LoopHead).(x := s.x.(playing := false))
    case AfterWriteDone => TaskAt(s, if s.x.inputDone then AfterWriteEmpty else LoopHead)
    case AfterWriteEmpty =>
      if s.x.buffer == [] then TaskAt(s, DrainStopPlaying).(h := s.h.(early := false))
      else TaskAt(s, LoopHead)
    case _ => s
  }

  predicate InDrain(pc: TaskPc) {
    pc.DrainStopPlaying? || pc.DrainMark? || pc.DrainDeactivate?
  }

  predicate InWait(pc: TaskPc) {
    pc.LoopHead? || pc.Sample? || pc.CheckPlaying? || pc.CheckStart? || pc.StartPlaying? || pc.CheckEmptyDone?
  }

  predicate InWrite(pc: TaskPc) {
    pc.Write? || pc.ClearBusy? || pc.FailFlag? || pc.FailDeactivate? || pc.FailStopPlaying?
    || pc.AfterWriteDone? || pc.AfterWriteEmpty?
  }

  /** One step of the playback task. */
  function TaskStep(s: State, io: nat): State {
    if InWait(s.t.pc) then WaitStep(s)
    else if InDrain(s.t.pc) then DrainStep(s)
    else if InWrite(s.t.pc) then WriteStep(s, io)
    else ReceiveStep(s, io)
  }

  /** Back to the head of enqueue's loop, or out of it once every byte is sent. */
  function EnqueueAgain(s: State): State {
    if s.c.sent == |s.c.pcm| then Return(s, true) else CallerAt(s, EnqLoopActive)
  }

  /** Line 69: the stream buffer took nothing within the wait. */
  function RefusedStep(s: State): State {
    s.(c := s.c.(attempts := s.c.attempts + 1,
                 pc := if s.c.attempts + 1 >= MAX_NO_PROGRESS_ATTEMPTS then EnqCheckFailed else EnqLoopActive),
       h := s.h.(sends := s.h.sends + 1))
  }

  /** Line 69: the stream buffer took the next `n` bytes. */
  function AcceptedStep(s: State, n: nat): State
    requires s.c.sent + n <= |s.c.pcm|
  {
    var more := s.c.pcm[s.c.sent..s.c.sent + n];
    State(s.x.(buffer := s.x.buffer + more), s.t,
          s.c.(sent := s.c.sent + n, got := n, attempts := 0, pc := EnqTotal),
          s.h.(sends := s.h.sends + 1, accepted := s.h.accepted + more, policy := s.h.policy.OnEnqueued(n)))
  }

  /** Line 69: one stream-buffer send. */
  function SendStep(s: State, io: nat): State {
    var n := Moved(io, Sendable(s));
    if n == 0 then RefusedStep(s) else AcceptedStep(s, n)
  }

  /** Lines 59-89 and 134-139: enqueue and updateMaximumQueued. */
  function EnqueueStep(s: State, io: nat): State {
    match s.c.pc
    case EnqActive => if s.x.active then CallerAt(s, EnqInputDone) else Return(s, false)
    case EnqInputDone => if s.x.inputDone then Return(s, false) else CallerAt(s, EnqLoopActive)
    case EnqLoopActive => CallerAt(s, if s.x.active then EnqLoopInputDone else EnqCheckFailed)
    case EnqLoopInputDone => CallerAt(s, if s.x.inputDone then EnqCheckFailed else EnqLoopFailed)
    case EnqLoopFailed => CallerAt(s, if s.x.failed then EnqCheckFailed else EnqSend)
    case EnqSend => SendStep(s, io)
    case EnqTotal => CallerAt(s, EnqObserve).(x := s.x.(totalEnqueued := s.x.totalEnqueued + s.c.got))
    case EnqObserve => s.(c := s.c.(observed := |s.x.buffer|, pc := EnqLoadMaximum))
    case EnqLoadMaximum =>
      if s.c.observed > s.x.maximumQueued
      then s.(c := s.c.(maximum := s.x.maximumQueued, pc := EnqRaiseMaximum)) else EnqueueAgain(s)
    case EnqRaiseMaximum =>
      // compare_exchange_weak may fail spuriously (io == 0); a failure reloads `maximum`
      if io > 0 && s.x.maximumQueued == s.c.maximum
      then EnqueueAgain(s.(x := s.x.(maximumQueued := s.c.observed)))
      else if s.c.observed > s.x.maximumQueued then s.(c := s.c.(maximum := s.x.maximumQueued))
      else EnqueueAgain(s)
    case EnqCheckFailed => if s.x.failed then Return(s, false) else CallerAt(s, EnqMarkFailed)
    case EnqMarkFailed => Return(s, false).(x := s.x.(failed := true))
    case _ => s
  }

  /** cancel() returns to beginTurn or to the caller. */
  function CancelDone(s: State): State {
    CallerAt(s, if s.c.beginning then BegReset else Ready)
  }

  /** Lines 91-93: finishInput. */
  function FinishStep(s: State): State {
    match s.c.pc
    case FinActive => CallerAt(s, if s.x.active then FinStore else Ready)
    case FinStore =>
      CallerAt(s, Ready).(x := s.x.(inputDone := true), h := s.h.(policy := s.h.policy.OnInputDone()))
    case _ => s
  }

  /** Lines 95-104: cancel. */
  function CancelStep(s: State, io: nat): State {
    match s.c.pc
    case CanActive => CallerAt(s, CanInputDone).(x := s.x.(active := false), h := s.h.(cancelled := true))
    case CanInputDone => s.(c := s.c.(waits := 0, pc := CanWait), x := s.x.(inputDone := true))
    case CanWait =>
      if s.c.waits < 150 && s.x.busy then s.(c := s.c.(waits := s.c.waits + 1)) else CallerAt(s, CanPlaying)
    case CanPlaying => CallerAt(s, CanDrained).(x := s.x.(playing := false))
    case CanDrained => CallerAt(s, CanBusy).(x := s.x.(drained := false))
    case CanBusy => if s.x.busy then CancelDone(s) else CallerAt(s, CanReset)
    case CanReset =>
      // the result of this reset is ignored (io == 0: refused)
      CancelDone(s.(x := s.x.(buffer := if io > 0 then [] else s.x.buffer)))
    case _ => s
  }

  /** Lines 37-54: beginTurn up to its last store. */
  function BeginStep(s: State, io: nat): State {
    match s.c.pc
    case BegActive =>
      if s.x.active then Return(s, false) else s.(c := s.c.(beginning := true, pc := CanActive))
    case BegReset =>
      if io > 0 then CallerAt(s, BegInputDone).(x := s.x.(buffer := [])) else Return(s, false)
    case BegInputDone =>
      CallerAt(s, BegPlaying).(x := s.x.(inputDone := false), h := s.h.(found := PositionOf(s.t)))
    case BegPlaying => CallerAt(s, BegDrained).(x := s.x.(playing := false))
    case BegDrained => CallerAt(s, BegFailed).(x := s.x.(drained := false))
    case BegFailed => CallerAt(s, BegMaximum).(x := s.x.(failed := false))
    case BegMaximum => CallerAt(s, BegUnderruns).(x := s.x.(maximumQueued := 0))
    case BegUnderruns => CallerAt(s, BegTotal).(x := s.x.(underruns := 0))
    case BegTotal => CallerAt(s, BegStart).(x := s.x.(totalEnqueued := 0))
    case _ => s
  }

  /** Line 55: the turn is live, and its history begins. */
  function ActivateStep(s: State): State {
    Return(s, true).(x := s.x.(active := true),
                     h := s.h.(accepted := [], played := [], policy := FRESH_POLICY, mark := 0, markDone := false,
                               early := false, cancelled := false, ioFailed := false, begun := s.h.found))
  }

  predicate InEnqueue(pc: CallerPc) {
    InEnqueueLoop(pc) || (pc.EnqActive? || pc.EnqInputDone? || pc.EnqCheckFailed? || pc.EnqMarkFailed?)
  }

  /** Past enqueue's checks of line 60 and still sending. */
  predicate InEnqueueLoop(pc: CallerPc) {
    pc.EnqLoopActive? || pc.EnqLoopInputDone? || pc.EnqLoopFailed? || pc.EnqSend?
    || pc.EnqTotal? || pc.EnqObserve? || pc.EnqLoadMaximum? || pc.EnqRaiseMaximum?
  }

  predicate InCancel(pc: CallerPc) {
    pc.CanActive? || pc.CanInputDone? || pc.CanWait? || pc.CanPlaying? || pc.CanDrained?
    || pc.CanBusy? || pc.CanReset?
  }

  /** One step of the operation the caller is executing. */
  function CallerStep(s: State, io: nat): State {
    if s.c.pc == Ready then s
    else if InEnqueue(s.c.pc) then EnqueueStep(s, io)
    else if InCancel(s.c.pc) then CancelStep(s, io)
    else if s.c.pc.FinActive? || s.c.pc.FinStore? then FinishStep(s)
    else if s.c.pc.BegStart? then ActivateStep(s)
    else BeginStep(s, io)
  }

  /** The caller's public operations. A call is taken only when no other call is running. */
  datatype Call =
    | BeginTurn
    | Enqueue(pcm: seq<byte>)
    | FinishInput
    | Cancel
    | ReportFailure(isFailure: bool)

  function StartCall(s: State, call: Call): State {
    if s.c.pc != Ready then s else
      match call
      case BeginTurn => CallerAt(s, BegActive)
      case Enqueue(pcm) =>
        // a null or empty buffer is rejected before any atomic is read
        if pcm == [] then Return(s, false)
        else s.(c := s.c.(pc := EnqActive, pcm := pcm, sent := 0, attempts := 0),
                h := s.h.(sends := 0, base := s.h.accepted))
      case FinishInput => CallerAt(s, FinActive)
      case Cancel => s.(c := s.c.(pc := CanActive, beginning := false))
      case ReportFailure(isFailure) => s.(x := s.x.(failed := isFailure))
  }

  datatype Action =
    | TaskRuns(io: nat)
    | CallerRuns(io: nat)
    | Invoke(call: Call)

  function Step(s: State, a: Action): State {
    match a
    case TaskRuns(io) => TaskStep(s, io)
    case CallerRuns(io) => CallerStep(s, io)
    case Invoke(call) => StartCall(s, call)
  }

  /** The state after a schedule: every interleaving of the two threads is one schedule. */
  function Run(actions: seq<Action>): State {
    if actions == [] then INITIAL else Step(Run(actions[..|actions| - 1]), actions[|actions| - 1])
  }

  /** The state after a further schedule. */
  function Continue(s: State, actions: seq<Action>): State
    decreases |actions|
  {
    if actions == [] then s else Continue(Step(s, actions[0]), actions[1..])
  }
}
