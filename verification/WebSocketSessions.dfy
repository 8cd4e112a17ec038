/**
 What a connection does with the frames it receives, one handleWebsocket call at a time, and the round
 trip of a whole list of frames through the stream.
 */
module WebSocketSessions {
  import opened Common
  import opened WebSocketFrames

  datatype Message = Message(opcode: byte, payload: seq<byte>, fin: bool)

  /** A connection: the octets still to be taken, what the application was given, what was answered. */
  datatype Session = Session(open: bool, input: seq<byte>, messages: seq<Message>, replies: seq<Message>)

  /** clientDisconnect(code): a close frame, then the connection goes down. */
  function Drop(s: Session, code: nat): Session
    requires code < 0x1_0000
  {
    s.(open := false, replies := s.replies + [Message(CLOSE, [code / 256, code % 256], true)])
  }

  /** handleWebsocketPayloadCb. */
  function Dispatch(s: Session, f: Frame): Session {
    var m := Message(f.opcode, f.payload, f.fin);
    if f.opcode == TEXT || f.opcode == BINARY || f.opcode == CONTINUATION || f.opcode == PONG
    then s.(messages := s.messages + [m])
    else if f.opcode == PING
    then s.(messages := s.messages + [m], replies := s.replies + [Message(PONG, f.payload, true)])
    else if f.opcode == CLOSE then Drop(s, 1000)
    else Drop(s, 1002)
  }

  /** One handleWebsocket call, read straight through. */
  function Handle(s: Session): Session {
    if !s.open then s
    else
      match Parse(s.input)
      case Short => Drop(s.(input := []), 1002)
      case TooBig(used) => Drop(s.(input := s.input[used..]), 1009)
      case Whole(f, used) => Dispatch(s.(input := s.input[used..]), f)
  }

  function HandleTimes(s: Session, calls: nat): Session
    decreases calls
  {
    if calls == 0 then s else HandleTimes(Handle(s), calls - 1)
  }

  // ---------- the round trip ----------

  /** A frame the application is given: data or ping or pong, no longer than the limit. */
  predicate Deliverable(f: Frame) {
    && Encodable(f) && |f.payload| <= MAX_DATA_SIZE
    && (f.opcode == TEXT || f.opcode == BINARY || f.opcode == CONTINUATION || f.opcode == PING || f.opcode == PONG)
  }

  predicate AllEncodable(frames: seq<Frame>) {
    forall i :: 0 <= i < |frames| ==> Encodable(frames[i])
  }

  predicate AllDeliverable(frames: seq<Frame>)
    ensures AllDeliverable(frames) ==> AllEncodable(frames)
  {
    forall i :: 0 <= i < |frames| ==> Deliverable(frames[i])
  }

  function EncodeAll(frames: seq<Frame>): seq<byte>
    requires AllEncodable(frames)
  {
    if frames == [] then [] else Encode(frames[0]) + EncodeAll(frames[1..])
  }

  function MessagesOf(frames: seq<Frame>): seq<Message> {
    if frames == [] then []
    else [Message(frames[0].opcode, frames[0].payload, frames[0].fin)] + MessagesOf(frames[1..])
  }

  /** Every ping is answered by a pong with its payload. */
  function PongsOf(frames: seq<Frame>): seq<Message> {
    if frames == [] then []
    else (if frames[0].opcode == PING then [Message(PONG, frames[0].payload, true)] else [])
         + PongsOf(frames[1..])
  }

  lemma {:induction false} Appended(a: seq<Message>, b: seq<Message>, c: seq<Message>)
    ensures (a + b) + c == a + (b + c) && a + [] == a
  {
  }

  lemma {:induction false} OneFrame(s: Session, f: Frame, rest: seq<byte>) returns (t: Session)
    requires s.open && Deliverable(f) && s.input == Encode(f) + rest
    ensures t == Handle(s)
         == s.(input := rest, messages := s.messages + [Message(f.opcode, f.payload, f.fin)],
               replies := if f.opcode == PING then s.replies + [Message(PONG, f.payload, true)] else s.replies)
  {
    hide Parse, Encode;
    ParseInvertsEncode(f, rest);
    assert s.input[|Encode(f)|..] == rest;
    t := Handle(s);
  }

  /**
   As many calls as frames deliver exactly those frames, in order, answer the pings, and leave what
   follows in the stream.
   */
  lemma {:induction false} StreamRoundTrip(s: Session, frames: seq<Frame>, rest: seq<byte>)
    requires s.open && AllDeliverable(frames)
    requires s.input == EncodeAll(frames) + rest
    ensures HandleTimes(s, |frames|)
         == s.(input := rest, messages := s.messages + MessagesOf(frames), replies := s.replies + PongsOf(frames))
    decreases |frames|
  {
    hide Handle, Encode, Deliverable;
    if frames == [] {
      assert s.messages + [] == s.messages && s.replies + [] == s.replies;
    } else {
      var f, after := frames[0], EncodeAll(frames[1..]) + rest;
      assert s.input == Encode(f) + after;
      var t := OneFrame(s, f, after);
      assert AllDeliverable(frames[1..]);
      StreamRoundTrip(t, frames[1..], rest);
      assert HandleTimes(s, |frames|) == HandleTimes(t, |frames| - 1);
      Appended(s.messages, [Message(f.opcode, f.payload, f.fin)], MessagesOf(frames[1..]));
      Appended(s.replies, if f.opcode == PING then [Message(PONG, f.payload, true)] else [],
               PongsOf(frames[1..]));
    }
  }

  /** A frame that is too big, closes, or has an opcode the client does not know ends the connection. */
  lemma {:induction false} OthersDisconnect(s: Session, f: Frame, rest: seq<byte>)
    requires s.open && Encodable(f) && s.input == Encode(f) + rest
    ensures Handle(s).open <==> Deliverable(f)
    ensures !Deliverable(f) ==> Handle(s).messages == s.messages
    ensures !Deliverable(f) ==> Handle(s) == Drop(s.(input := Handle(s).input),
      if |f.payload| > MAX_DATA_SIZE then 1009 else if f.opcode == CLOSE then 1000 else 1002)
  {
    hide Parse, Encode;
    ParseInvertsEncode(f, rest);
  }

  /** A stream that ends inside a frame ends the connection without delivering anything. */
  lemma {:induction false} CutStreamDisconnects(s: Session, f: Frame, cut: nat)
    requires s.open && Deliverable(f) && cut < |Encode(f)| && s.input == Encode(f)[..cut]
    ensures Handle(s) == Drop(s.(input := []), 1002)
  {
    hide Encode;
    var whole := Encode(f);
    assert whole[..cut] + whole[cut..] == whole;
    ParseInvertsEncode(f, []);
    assert whole + [] == whole;
    if !Parse(s.input).Short? {
      ParseStable(s.input, whole[cut..]);
    }
  }

  lemma {:induction false} SliceStable(s: seq<byte>, more: seq<byte>, from: nat, to: nat)
    requires from <= to <= |s|
    ensures (s + more)[from..to] == s[from..to]
  {
  }

  /** What has been read of a frame decides it: more input changes nothing. */
  lemma {:induction false} ParseStable(s: seq<byte>, more: seq<byte>)
    requires !Parse(s).Short?
    ensures Parse(s + more) == Parse(s)
  {
    hide Masked;
    var t := s + more;
    assert forall i :: 0 <= i < |s| ==> t[i] == s[i];
    var start, length := LengthEnd(s[1]), PayloadLength(s);
    var data := if s[1] >= 128 then start + 4 else start;
    if length <= MAX_DATA_SIZE {
      SliceStable(s, more, data, data + length);
      SliceStable(s, more, start, data);
    }
  }
}
