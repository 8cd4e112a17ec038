/**
 The playback buffering policy: when playback of a reply may start, what an
 underrun costs, and when the reply has drained. `Policy` is the value the
 two-thread player of module PlaybackMachine is compared with; the class
 `PlaybackBufferPolicy` is the object the firmware declares for it.
 */
module PlaybackPolicy {
  import opened Common

  const CAPACITY_BYTES: nat := 192 * 1024
  const START_WATERMARK_BYTES: nat := 12 * 1024
  const WRITE_CHUNK_BYTES: nat := 1920
  const MAX_NO_PROGRESS_ATTEMPTS: nat := 8

  datatype Policy = Policy(queued: nat, maximum: nat, underruns: nat, inputDone: bool, playing: bool) {
    predicate ShouldStart(watermark: nat) {
      !playing && queued > 0 && (queued >= watermark || inputDone)
    }

    predicate Drained() {
      inputDone && queued == 0
    }

    function OnEnqueued(bytes: nat): Policy {
      this.(queued := queued + bytes, maximum := Max(maximum, queued + bytes))
    }

    function OnPlaybackStarted(): Policy {
      this.(playing := true)
    }

    function OnConsumed(bytes: nat): Policy {
      this.(queued := if bytes >= queued then 0 else queued - bytes)
    }

    function OnInputDone(): Policy {
      this.(inputDone := true)
    }

    function OnUnderrun(): Policy {
      this.(playing := false, underruns := underruns + 1)
    }
  }

  const FRESH_POLICY: Policy := Policy(0, 0, 0, false, false)

  // ---------- what the policy says of the events it was told ----------

  datatype PolicyEvent = Enqueued(bytes: nat) | Started | Consumed(bytes: nat) | InputDone | Underrun

  function Told(p: Policy, e: PolicyEvent): Policy {
    match e
    case Enqueued(bytes) => p.OnEnqueued(bytes)
    case Started => p.OnPlaybackStarted()
    case Consumed(bytes) => p.OnConsumed(bytes)
    case InputDone => p.OnInputDone()
    case Underrun => p.OnUnderrun()
  }

  /** The policy of a turn in which these events happened. */
  function Replay(events: seq<PolicyEvent>): Policy {
    if events == [] then FRESH_POLICY else Told(Replay(events[..|events| - 1]), events[|events| - 1])
  }

  function BytesIn(events: seq<PolicyEvent>): nat {
    if events == [] then 0
    else BytesIn(events[..|events| - 1]) + (match events[|events| - 1] case Enqueued(n) => n case _ => 0)
  }

  function BytesOut(events: seq<PolicyEvent>): nat {
    if events == [] then 0
    else BytesOut(events[..|events| - 1]) + (match events[|events| - 1] case Consumed(n) => n case _ => 0)
  }

  /** No prefix of the events consumes more than it enqueued. */
  predicate Balanced(events: seq<PolicyEvent>) {
    forall i :: 0 <= i <= |events| ==> BytesOut(events[..i]) <= BytesIn(events[..i])
  }

  /** As long as no more is consumed than was enqueued, the queue holds the difference. */
  lemma {:induction false} QueuedIsBalance(events: seq<PolicyEvent>)
    requires Balanced(events)
    ensures Replay(events).queued == BytesIn(events) - BytesOut(events)
  {
    if events != [] {
      var before := events[..|events| - 1];
      assert forall i :: 0 <= i <= |before| ==> before[..i] == events[..i];
      QueuedIsBalance(before);
      assert events[..|events|] == events;
      assert BytesOut(events[..|events|]) <= BytesIn(events[..|events|]);
    }
  }

  lemma {:induction false} BelowMaximum(events: seq<PolicyEvent>, i: nat)
    requires i <= |events|
    ensures Replay(events[..i]).queued <= Replay(events).maximum
    decreases |events|
  {
    if i == |events| {
      assert events[..i] == events;
      AtMostMaximum(events);
    } else {
      BelowMaximum(events[..|events| - 1], i);
      assert events[..|events| - 1][..i] == events[..i];
    }
  }

  lemma {:induction false} AtMostMaximum(events: seq<PolicyEvent>)
    ensures Replay(events).queued <= Replay(events).maximum
  {
    if events != [] {
      AtMostMaximum(events[..|events| - 1]);
    }
  }

  lemma {:induction false} MaximumReached(events: seq<PolicyEvent>) returns (i: nat)
    ensures i <= |events| && Replay(events[..i]).queued == Replay(events).maximum
  {
    i := |events|;
    assert events[..i] == events;
    if events != [] && Replay(events).queued != Replay(events).maximum {
      var before := events[..|events| - 1];
      i := MaximumReached(before);
      assert before[..i] == events[..i];
    }
  }

  /** The recorded maximum is the peak of the queue, and was reached. */
  lemma {:induction false} MaximumIsPeak(events: seq<PolicyEvent>)
    ensures forall i :: 0 <= i <= |events| ==> Replay(events[..i]).queued <= Replay(events).maximum
    ensures exists i :: 0 <= i <= |events| && Replay(events[..i]).queued == Replay(events).maximum
  {
    hide Replay;
    forall i | 0 <= i <= |events| ensures Replay(events[..i]).queued <= Replay(events).maximum {
      BelowMaximum(events, i);
    }
    var i := MaximumReached(events);
  }

  /** Every underrun is counted, and the end of the input is remembered. */
  lemma {:induction false} UnderrunsCounted(events: seq<PolicyEvent>)
    ensures Replay(events).underruns == multiset(events)[Underrun]
    ensures Replay(events).inputDone <==> InputDone in events
  {
    if events != [] {
      var before := events[..|events| - 1];
      var last := events[|events| - 1];
      UnderrunsCounted(before);
      assert events == before + [last];
    }
  }

  /** A start that no underrun followed. */
  predicate StartedAt(events: seq<PolicyEvent>, i: nat) {
    i < |events| && events[i] == Started && forall k :: i < k < |events| ==> events[k] != Underrun
  }

  /** The turn plays exactly since such a start. */
  lemma {:induction false} PlaysSinceStart(events: seq<PolicyEvent>)
    ensures Replay(events).playing <==> exists i: nat :: StartedAt(events, i)
  {
    if events != [] {
      var before := events[..|events| - 1];
      var last := events[|events| - 1];
      PlaysSinceStart(before);
      forall i: nat | i < |before|
        ensures StartedAt(events, i) <==> StartedAt(before, i) && last != Underrun
      {
        StartStays(events, i);
      }
      if last == Started {
        assert StartedAt(events, |before|);
      } else if last != Underrun && Replay(before).playing {
        var i: nat :| StartedAt(before, i);
        assert StartedAt(events, i);
      }
    }
  }

  lemma {:induction false} StartStays(events: seq<PolicyEvent>, i: nat)
    requires i + 1 < |events|
    ensures var before := events[..|events| - 1];
      StartedAt(events, i) <==> StartedAt(before, i) && events[|events| - 1] != Underrun
  {
    var before := events[..|events| - 1];
    assert forall k :: 0 <= k < |before| ==> before[k] == events[k];
  }

  /** The mutable policy object of one turn after another. */
  class PlaybackBufferPolicy {
    const startWatermarkBytes: nat
    var queuedBytes: nat
    var maximumQueuedBytes: nat
    var underrunCount: nat
    var inputDone: bool
    var playing: bool
    ghost var events: seq<PolicyEvent>     // of the current turn

    ghost function Value(): Policy
      reads this
    {
      Policy(queuedBytes, maximumQueuedBytes, underrunCount, inputDone, playing)
    }

    ghost predicate Valid()
      reads this
    {
      Value() == Replay(events)
    }

    constructor (watermark: nat)
      ensures Valid() && startWatermarkBytes == watermark && events == []
    {
      startWatermarkBytes := watermark;
      queuedBytes, maximumQueuedBytes, underrunCount := 0, 0, 0;
      inputDone, playing, events := false, false, [];
    }

    method BeginTurn()
      modifies this
      ensures Valid() && events == []
    {
      queuedBytes := 0;
      maximumQueuedBytes := 0;
      underrunCount := 0;
      inputDone := false;
      playing := false;
      events := [];
    }

    ghost method Note(e: PolicyEvent)
      requires Value() == Told(Replay(events), e)
      modifies this`events
      ensures Valid() && events == old(events) + [e]
    {
      assert (events + [e])[..|events|] == events;
      events := events + [e];
    }

    method OnEnqueued(bytes: nat)
      requires Valid()
      modifies this
      ensures Valid() && events == old(events) + [Enqueued(bytes)]
    {
      queuedBytes := queuedBytes + bytes;
      if maximumQueuedBytes < queuedBytes {
        maximumQueuedBytes := queuedBytes;
      }
      Note(Enqueued(bytes));
    }

    method ShouldStart() returns (start: bool)
      requires Valid()
      ensures start == Replay(events).ShouldStart(startWatermarkBytes)
    {
      start := !playing && queuedBytes > 0 && (queuedBytes >= startWatermarkBytes || inputDone);
    }

    method Drained() returns (drained: bool)
      requires Valid()
      ensures drained == Replay(events).Drained()
    {
      drained := inputDone && queuedBytes == 0;
    }

    method OnPlaybackStarted()
      requires Valid()
      modifies this
      ensures Valid() && events == old(events) + [Started]
    {
      playing := true;
      Note(Started);
    }

    method OnConsumed(bytes: nat)
      requires Valid()
      modifies this
      ensures Valid() && events == old(events) + [Consumed(bytes)]
    {
      queuedBytes := if bytes >= queuedBytes then 0 else queuedBytes - bytes;
      Note(Consumed(bytes));
    }

    method OnInputDone()
      requires Valid()
      modifies this
      ensures Valid() && events == old(events) + [InputDone]
    {
      inputDone := true;
      Note(InputDone);
    }

    method OnUnderrun()
      requires Valid()
      modifies this
      ensures Valid() && events == old(events) + [Underrun]
    {
      playing := false;
      underrunCount := underrunCount + 1;
      Note(Underrun);
    }
  }
}
