/**
 The realtime transport of realtime_voice_transport.h over a socket the environment drives. A socket
 send may succeed, fail with the socket still up, or find the connection lost, which delivers a
 DISCONNECTED event before the send returns. `Link` is the value of the object `RealtimeVoiceTransport`.
 */
module RealtimeTransport {
  import opened Common

  datatype Status =
    | Idle
    | Connecting
    | AwaitingSession
    | Ready
    | ProviderError
    | ProtocolError
    | Disconnected

  /** Outbound messages, by their type. */
  datatype Message =
    | SessionCreate
    | Mute
    | Unmute
    | Append
    | Commit
    | SessionClose

  /** Server events, by what the runtime does with them. */
  datatype Event =
    | SessionCreated
    | AudioStarted
    | AudioDelta(pcm: Option<seq<byte>>)      // what its audio decodes to, scaled to the volume
    | AudioDone
    | ResponseDone
    | ResponseFailed
    | ErrorReported
    | Malformed
    | Other

  datatype Socket = Down | Handshake | Up

  datatype SendOutcome = Sent | Failed | Lost

  /** What one socket loop() meets. */
  datatype SocketInput =
    | Quiet
    | Connects
    | Opened
    | Text(event: Event)
    | SocketError
    | Dropped(reconnects: bool)

  datatype Link = Link(
    status: Status, closing: bool, events: seq<Event>,
    socket: Socket, outcomes: seq<SendOutcome>,
    sent: seq<Message>)       // what the current connection has carried

  const MAXIMUM_QUEUED_EVENTS: nat := 48

  function OnDisconnected(l: Link): Link {
    if !l.closing && l.status != ProviderError && l.status != ProtocolError
    then l.(status := Disconnected) else l
  }

  /** socket_.disconnect(): a live socket goes down and reports it. */
  function DropSocket(l: Link): Link {
    if l.socket == Down then l else OnDisconnected(l.(socket := Down))
  }

  function Outcome(l: Link): SendOutcome {
    if l.socket != Up || l.outcomes == [] then Failed else l.outcomes[0]
  }

  function SendText(l: Link, m: Message): Link {
    if l.socket != Up then l else
      var rest := if l.outcomes == [] then [] else l.outcomes[1..];
      match Outcome(l)
      case Sent => l.(outcomes := rest, sent := l.sent + [m])
      case Failed => l.(outcomes := rest)
      case Lost => OnDisconnected(l.(outcomes := rest, socket := Down))
  }

  function Begin(l: Link, valid: bool): Link {
    if !valid then l.(status := ProtocolError)
    else Close(l).(closing := false, status := Connecting)
  }

  function Close(l: Link): Link {
    var told := if l.status == Ready then SendText(l, SessionClose) else l;
    DropSocket(told.(closing := true)).(events := [], status := Idle)
  }

  function QueueEvent(l: Link, e: Event): Link {
    if |l.events| >= MAXIMUM_QUEUED_EVENTS
    then DropSocket(l.(events := [Malformed], status := ProtocolError))
    else l.(events := l.events + [e])
  }

  function OnConnected(l: Link): Link {
    var asked := SendText(l.(status := AwaitingSession), SessionCreate);
    if Outcome(l) == Sent then asked else DropSocket(asked.(status := Disconnected))
  }

  function OnText(l: Link, e: Event): Link {
    match e
    case SessionCreated =>
      var muted := SendText(l, Mute);
      if Outcome(l) == Sent then QueueEvent(muted.(status := Ready), e)
      else DropSocket(muted.(status := Disconnected))
    case ErrorReported => QueueEvent(l.(status := ProviderError), e)
    case Malformed => QueueEvent(l.(status := ProtocolError), e)
    case _ => QueueEvent(l, e)
  }

  /** One socket loop(): a connection attempt, or at most one event of a live socket. */
  function Poll(l: Link, input: SocketInput): Link {
    match input
    case Quiet => l
    case Connects => if l.socket == Down then l.(socket := Handshake) else l
    case Opened => if l.socket == Handshake then OnConnected(l.(socket := Up, sent := [])) else l
    case Text(e) => if l.socket == Up then OnText(l, e) else l
    case SocketError => if l.socket == Up && !l.closing then l.(status := Disconnected) else l
    case Dropped(reconnects) =>
      if l.socket == Down then l
      else OnDisconnected(l.(socket := Down)).(socket := if reconnects then Handshake else Down)
  }

  // ---------- what the transport keeps of its own ----------

  /** The queue is bounded, each connection starts with create and mute, and an idle transport holds nothing. */
  ghost predicate Sound(l: Link) {
    && |l.events| <= MAXIMUM_QUEUED_EVENTS
    && (l.socket == Up ==> l.sent != [])
    && (l.sent != [] ==> l.sent[0] == SessionCreate)
    && (|l.sent| > 1 ==> l.sent[1] == Mute)
    && (l.status == Ready ==> |l.sent| > 1)
    && (l.status == Idle ==> l.socket == Down && l.events == [])
  }

  /** A ready session may send anything. */
  lemma {:induction false} SendKeepsSound(l: Link, m: Message)
    requires Sound(l) && l.status == Ready
    ensures Sound(SendText(l, m))
  {
  }

  lemma {:induction false} ConnectKeepsSound(l: Link)
    requires Sound(l) && l.socket == Handshake
    ensures Sound(OnConnected(l.(socket := Up, sent := [])))
  {
  }

  /** The mute behind session.created is the second message of its connection. */
  lemma {:induction false} TextKeepsSound(l: Link, e: Event)
    requires Sound(l) && l.status != Idle && l.socket == Up
    ensures Sound(OnText(l, e))
  {
  }

  lemma {:induction false} PollKeepsSound(l: Link, input: SocketInput)
    requires Sound(l) && l.status != Idle
    ensures Sound(Poll(l, input))
  {
    hide OnConnected, OnText;
    match input
    case Opened => if l.socket == Handshake { ConnectKeepsSound(l); }
    case Text(e) => if l.socket == Up { TextKeepsSound(l, e); }
    case _ =>
  }

  /** Closing tells only a ready session, and leaves nothing behind. */
  lemma {:induction false} CloseKeepsSound(l: Link)
    requires Sound(l)
    ensures var c := Close(l);
      && Sound(c) && c.status == Idle && c.closing
      && (c.sent == l.sent || (l.status == Ready && c.sent == l.sent + [SessionClose]))
  {
  }

  lemma {:induction false} BeginKeepsSound(l: Link, valid: bool)
    requires Sound(l)
    ensures Sound(Begin(l, valid))
  {
    hide Close;
    CloseKeepsSound(l);
  }

  class RealtimeVoiceTransport {
    var status: Status
    var closing: bool
    var events: seq<Event>
    var socket: Socket
    var outcomes: seq<SendOutcome>
    ghost var sent: seq<Message>

    ghost function Value(): Link
      reads this
    {
      Link(status, closing, events, socket, outcomes, sent)
    }

    ghost predicate Valid()
      reads this
    {
      Sound(Value())
    }

    constructor ()
      ensures Valid() && Value() == Link(Idle, true, [], Down, [], [])
    {
      status, closing, events, socket, outcomes, sent := Idle, true, [], Down, [], [];
    }

    method HandleDisconnected()
      modifies this
      ensures Value() == OnDisconnected(old(Value()))
    {
      if !closing && status != ProviderError && status != ProtocolError {
        status := Disconnected;
      }
    }

    method DisconnectSocket()
      modifies this
      ensures Value() == DropSocket(old(Value()))
    {
      if socket != Down {
        socket := Down;
        HandleDisconnected();
      }
    }

    method SendMessage(m: Message) returns (ok: bool)
      modifies this
      ensures Value() == SendText(old(Value()), m) && ok == (Outcome(old(Value())) == Sent)
      ensures old(Valid() && status == Ready) ==> Valid()
    {
      if Valid() && status == Ready {
        SendKeepsSound(Value(), m);
      }
      if socket != Up {
        return false;
      }
      var outcome := if outcomes == [] then Failed else outcomes[0];
      outcomes := if outcomes == [] then [] else outcomes[1..];
      match outcome {
        case Sent =>
          sent := sent + [m];
          return true;
        case Failed =>
          return false;
        case Lost =>
          socket := Down;
          HandleDisconnected();
          return false;
      }
    }

    method CloseSession()
      modifies this
      ensures Value() == Close(old(Value()))
      ensures old(Valid()) ==> Valid()
    {
      if Valid() {
        CloseKeepsSound(Value());
      }
      if status == Ready {
        var _ := SendMessage(SessionClose);
      }
      closing := true;
      DisconnectSocket();
      events := [];
      status := Idle;
    }

    method BeginSession(valid: bool) returns (ok: bool)
      modifies this
      ensures Value() == Begin(old(Value()), valid) && ok == valid
      ensures old(Valid()) ==> Valid()
    {
      if Valid() {
        BeginKeepsSound(Value(), valid);
      }
      if !valid {
        status := ProtocolError;
        return false;
      }
      CloseSession();
      closing := false;
      status := Connecting;
      return true;
    }

    method Enqueue(e: Event)
      modifies this
      ensures Value() == QueueEvent(old(Value()), e)
    {
      if |events| >= MAXIMUM_QUEUED_EVENTS {
        status := ProtocolError;
        events := [Malformed];
        DisconnectSocket();
        return;
      }
      events := events + [e];
    }

    method HandleConnected()
      modifies this
      ensures Value() == OnConnected(old(Value()))
    {
      status := AwaitingSession;
      var ok := SendMessage(SessionCreate);
      if !ok {
        status := Disconnected;
        DisconnectSocket();
      }
    }

    method HandleText(e: Event)
      modifies this
      ensures Value() == OnText(old(Value()), e)
    {
      if e == SessionCreated {
        var ok := SendMessage(Mute);
        if !ok {
          status := Disconnected;
          DisconnectSocket();
          return;
        }
        status := Ready;
      } else if e == ErrorReported {
        status := ProviderError;
      } else if e == Malformed {
        status := ProtocolError;
      }
      Enqueue(e);
    }

    method Loop(input: SocketInput)
      modifies this
      ensures Value() == Poll(old(Value()), input)
      ensures old(Valid() && status != Idle) ==> Valid()
    {
      if Valid() && status != Idle {
        PollKeepsSound(Value(), input);
      }
      match input {
        case Quiet =>
        case Connects =>
          if socket == Down { socket := Handshake; }
        case Opened =>
          if socket == Handshake {
            socket, sent := Up, [];
            HandleConnected();
          }
        case Text(e) =>
          if socket == Up { HandleText(e); }
        case SocketError =>
          if socket == Up && !closing { status := Disconnected; }
        case Dropped(reconnects) =>
          if socket != Down {
            socket := Down;
            HandleDisconnected();
            socket := if reconnects then Handshake else Down;
          }
      }
    }

    method PopEvent() returns (found: bool, e: Event)
      modifies this
      ensures found == (old(events) != [])
      ensures found ==> e == old(events)[0] && Value() == old(Value()).(events := old(events)[1..])
      ensures !found ==> Value() == old(Value())
      ensures old(Valid()) ==> Valid()
    {
      if events == [] {
        return false, Other;
      }
      found, e := true, events[0];
      events := events[1..];
    }
  }
}
