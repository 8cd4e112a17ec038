/** Two ends of a connection: what one sends frame by frame is what the other is given. */
module WebSocketExchange {
  import opened Common
  import opened WebSocketFrames
  import opened WebSocketSessions
  import opened WebSocketClients

  /** A message an application may send and its peer will be given. */
  predicate Sendable(m: Message) {
    && |m.payload| <= MAX_DATA_SIZE
    && (m.opcode == TEXT || m.opcode == BINARY || m.opcode == CONTINUATION || m.opcode == PING || m.opcode == PONG)
  }

  lemma {:induction false} FramesAppend(frames: seq<Frame>, f: Frame)
    requires AllDeliverable(frames) && Deliverable(f)
    ensures AllDeliverable(frames + [f])
    ensures EncodeAll(frames + [f]) == EncodeAll(frames) + Encode(f)
    ensures MessagesOf(frames + [f]) == MessagesOf(frames) + [Message(f.opcode, f.payload, f.fin)]
    decreases |frames|
  {
    hide Encode;
    var all := frames + [f];
    if frames == [] {
      assert all[1..] == [];
      assert Encode(f) + [] == [] + Encode(f);
      assert EncodeAll(all) == Encode(f) + EncodeAll([]);
    } else {
      assert all[1..] == frames[1..] + [f];
      FramesAppend(frames[1..], f);
      assert Encode(frames[0]) + (EncodeAll(frames[1..]) + Encode(f)) == EncodeAll(frames) + Encode(f);
    }
  }

  lemma {:induction false} SliceIs(all: seq<byte>, from: nat, data: seq<byte>)
    requires from + |data| <= |all| && forall i :: 0 <= i < |data| ==> all[from + i] == data[i]
    ensures all[from..from + |data|] == data
  {
  }

  /** One message, its octets where SendFrame expects them. */
  method SendOne(sender: WsClient, m: Message, inPlace: bool, heap: bool) returns (ok: bool, ghost f: Frame)
    requires sender.connected && Sendable(m)
    modifies sender`sent, sender`replies
    ensures Deliverable(f) && f == Frame(m.fin, m.opcode, f.mask, m.payload)
    ensures f.mask.Some? <==> sender.isClient
    ensures ok ==> sender.sent == old(sender.sent) + Encode(f)
  {
    hide Encode, CutShort;
    var from := if inPlace then MAX_HEADER_SIZE else 0;
    var buffer := new byte[from + |m.payload|];
    forall i | 0 <= i < |m.payload| {
      buffer[from + i] := m.payload[i];
    }
    assert forall i :: 0 <= i < |m.payload| ==> buffer[..][from + i] == m.payload[i];
    SliceIs(buffer[..], from, m.payload);
    ghost var key: Key;
    ok, key := sender.SendFrame(m.opcode, buffer, |m.payload|, m.fin, inPlace, heap);
    f := Frame(m.fin, m.opcode, sender.KeyUsed(key), m.payload);
  }

  /**
   Whatever is sent, with masking or without, with the header in the payload or not: when every send reports success,
   a peer that takes what the connection carried, in reads of any size, is given exactly those messages in order,
   and the connection is still up with nothing left over.
   */
  method Exchange(asClient: bool, outgoing: seq<Message>, inPlace: bool, heap: bool)
    returns (ok: bool, receiver: WsClient)
    requires forall i :: 0 <= i < |outgoing| ==> Sendable(outgoing[i])
    ensures ok ==> receiver.messages == outgoing && receiver.connected && receiver.stream == []
  {
    hide Encode, EncodeAll, MessagesOf, PongsOf, Deliverable;
    var sender := new WsClient(asClient, []);
    ghost var frames: seq<Frame> := [];
    NothingSent();
    ok := true;
    var i := 0;
    while i < |outgoing| && ok
      invariant 0 <= i <= |outgoing| && sender.connected && fresh(sender)
      invariant ok ==> AllDeliverable(frames) && sender.sent == EncodeAll(frames)
      invariant ok ==> |frames| == i && MessagesOf(frames) == outgoing[..i]
    {
      ghost var f: Frame;
      ok, f := SendOne(sender, outgoing[i], inPlace, heap);
      if ok {
        FramesAppend(frames, f);
        frames := frames + [f];
        assert outgoing[..i + 1] == outgoing[..i] + [outgoing[i]];
      }
      i := i + 1;
    }
    receiver := new WsClient(!asClient, sender.sent);
    if ok {
      assert outgoing[..|outgoing|] == outgoing;
      assert EncodeAll(frames) + [] == EncodeAll(frames);
      StreamRoundTrip(receiver.After(), frames, []);
      assert [] + MessagesOf(frames) == MessagesOf(frames);
      receiver.HandleRepeatedly(|outgoing|, heap);
    }
  }

  lemma {:induction false} NothingSent()
    ensures EncodeAll([]) == [] && MessagesOf([]) == []
  {
  }
}
