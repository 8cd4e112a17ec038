/** The turn state machine of voice_turn_state.h. */
module VoiceTurn {

  datatype TurnState =
    | Unconfigured
    | ConnectingWifi
    | SyncingClock
    | ConnectingProvider
    | Idle
    | RecordingAndStreaming
    | WaitingResponse
    | Playing
    | Error

  datatype TurnEvent =
    | ConfigLoaded
    | ConfigCleared
    | WifiConnected
    | ClockSynchronized
    | ProviderConnected
    | ButtonPressed
    | ButtonReleased
    | RecordingCancelled
    | OutputAudioStarted
    | ResponseDone
    | Failure
    | Recover

  /** The state after an event; an event with no transition leaves the state as it is. */
  function Next(state: TurnState, event: TurnEvent): TurnState {
    match event
    case ConfigCleared => Unconfigured
    case Failure => if state == Unconfigured then Unconfigured else Error
    case ConfigLoaded => if state == Unconfigured then ConnectingWifi else state
    case WifiConnected => if state == ConnectingWifi then SyncingClock else state
    case ClockSynchronized => if state == SyncingClock then ConnectingProvider else state
    case ProviderConnected => if state == ConnectingProvider then Idle else state
    case ButtonPressed => if state == Idle then RecordingAndStreaming else state
    case ButtonReleased => if state == RecordingAndStreaming then WaitingResponse else state
    case RecordingCancelled => if state == RecordingAndStreaming then Idle else state
    case OutputAudioStarted => if state == WaitingResponse then Playing else state
    case ResponseDone => if state == WaitingResponse || state == Playing then Idle else state
    case Recover => if state == Error then ConnectingWifi else state
  }

  /** Whether apply() reports that it took the event. */
  predicate Accepts(state: TurnState, event: TurnEvent) {
    event == ConfigCleared || Next(state, event) != state
  }

  /** The transitions besides those of a failure and of a cleared configuration. */
  const EDGES: set<(TurnState, TurnEvent, TurnState)> := {
    (Unconfigured, ConfigLoaded, ConnectingWifi),
    (ConnectingWifi, WifiConnected, SyncingClock),
    (SyncingClock, ClockSynchronized, ConnectingProvider),
    (ConnectingProvider, ProviderConnected, Idle),
    (Idle, ButtonPressed, RecordingAndStreaming),
    (RecordingAndStreaming, ButtonReleased, WaitingResponse),
    (RecordingAndStreaming, RecordingCancelled, Idle),
    (WaitingResponse, OutputAudioStarted, Playing),
    (WaitingResponse, ResponseDone, Idle),
    (Playing, ResponseDone, Idle),
    (Error, Recover, ConnectingWifi)
  }

  /** The machine moves along these edges and no others; a failure leads to Error, and clearing to Unconfigured. */
  lemma {:induction false} EdgesExactly(state: TurnState, event: TurnEvent, next: TurnState)
    ensures event != Failure && event != ConfigCleared ==>
      (Next(state, event) == next && Accepts(state, event) <==> (state, event, next) in EDGES)
    ensures Next(state, ConfigCleared) == Unconfigured && Accepts(state, ConfigCleared)
    ensures Accepts(state, Failure) <==> state != Unconfigured && state != Error
    ensures Accepts(state, Failure) ==> Next(state, Failure) == Error
    ensures !Accepts(state, event) ==> Next(state, event) == state
  {
  }

  class VoiceTurnMachine {
    var state: TurnState

    constructor ()
      ensures state == Unconfigured
    {
      state := Unconfigured;
    }

    method Apply(event: TurnEvent) returns (accepted: bool)
      modifies this
      ensures state == Next(old(state), event) && accepted == Accepts(old(state), event)
    {
      if event == ConfigCleared {
        state := Unconfigured;
        return true;
      }
      if event == Failure {
        if state == Unconfigured || state == Error {
          return false;
        }
        state := Error;
        return true;
      }
      var next := state;
      match state {
        case Unconfigured =>
          if event == ConfigLoaded { next := ConnectingWifi; }
        case ConnectingWifi =>
          if event == WifiConnected { next := SyncingClock; }
        case SyncingClock =>
          if event == ClockSynchronized { next := ConnectingProvider; }
        case ConnectingProvider =>
          if event == ProviderConnected { next := Idle; }
        case Idle =>
          if event == ButtonPressed { next := RecordingAndStreaming; }
        case RecordingAndStreaming =>
          if event == ButtonReleased {
            next := WaitingResponse;
          } else if event == RecordingCancelled {
            next := Idle;
          }
        case WaitingResponse =>
          if event == OutputAudioStarted {
            next := Playing;
          } else if event == ResponseDone {
            next := Idle;
          }
        case Playing =>
          if event == ResponseDone { next := Idle; }
        case Error =>
          if event == Recover { next := ConnectingWifi; }
      }
      if next == state {
        return false;
      }
      state := next;
      return true;
    }
  }
}
