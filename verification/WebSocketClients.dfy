/**
 The connection object of WebSockets.cpp: frame sending through either buffer, and the receive path that
 starts again from the first header octet each time more of the header has arrived. `stream` is what the
 peer will have sent by the time the connection ends or times out; how much each read returns is arbitrary.
 */
module WebSocketClients {
  import opened ByteBuffers
  import opened Common
  import opened WebSocketFrames
  import opened WebSocketBuffers
  import opened WebSocketSessions

  const INTERN_LIMIT: nat := 1400

  /** What a send that failed has put on the wire: it cut the header or the data short. */
  ghost predicate CutShort(before: seq<byte>, after: seq<byte>, head: seq<byte>, data: seq<byte>) {
    exists i, j :: 0 <= i <= |head| && 0 <= j <= |data| && (i < |head| || j < |data|)
                   && after == before + head[..i] + data[..j]
  }

  /** The reads of a header: two octets, then to the end of its length, then to the end of its key. */
  predicate NextRead(h: seq<byte>, size: nat) {
    if |h| < 2 then size == 2
    else if |h| < LengthEnd(h[1]) then size == LengthEnd(h[1])
    else h[1] >= 128 && PayloadLength(h) <= MAX_DATA_SIZE && size == LengthEnd(h[1]) + 4
  }

  /** Header octets taken by those reads so far. */
  predicate HeaderPart(h: seq<byte>) {
    || |h| == 0
    || (|h| >= 2 && |h| == 2)
    || (|h| >= 2 && |h| == LengthEnd(h[1]))
    || (|h| >= 2 && h[1] >= 128 && |h| == LengthEnd(h[1]) + 4 && PayloadLength(h) <= MAX_DATA_SIZE)
  }

  /** A send of `f`: all of it when it succeeds, and otherwise cut short. */
  ghost predicate FrameSent(ok: bool, before: seq<byte>, after: seq<byte>, f: Frame)
    requires Encodable(f)
  {
    if ok then after == before + Encode(f)
    else CutShort(before, after, HeaderBytes(f.fin, f.opcode, |f.payload|, f.mask), DataBytes(f))
  }

  /** A single write of the header and the data behind it. */
  lemma {:induction false} WrittenAtOnce(before: seq<byte>, f: Frame, total: nat)
    requires Encodable(f) && total <= |Encode(f)|
    ensures FrameSent(total == |Encode(f)|, before, before + Encode(f)[..total], f)
  {
    hide HeaderBytes, Masked;
    var head, data := HeaderBytes(f.fin, f.opcode, |f.payload|, f.mask), DataBytes(f);
    var i := Min(total, |head|);
    assert Encode(f)[..total] == head[..i] + data[..total - i];
    assert before + Encode(f)[..total] == before + head[..i] + data[..total - i];
    assert Encode(f)[..|Encode(f)|] == Encode(f);
  }

  lemma {:induction false} PartOf(s: seq<byte>, from: nat, to: nat, n: nat)
    requires from + n <= to <= |s|
    ensures s[from..to][..n] == s[from..from + n]
  {
  }

  /** The header and the data written one after the other. */
  lemma {:induction false} WrittenInTwo(before: seq<byte>, f: Frame, i: nat, j: nat)
    requires Encodable(f) && i <= |HeaderBytes(f.fin, f.opcode, |f.payload|, f.mask)| && j <= |DataBytes(f)|
    ensures var head, data := HeaderBytes(f.fin, f.opcode, |f.payload|, f.mask), DataBytes(f);
      FrameSent(i == |head| && j == |data|, before, before + head[..i] + data[..j], f)
  {
    hide HeaderBytes, Masked;
    var head, data := HeaderBytes(f.fin, f.opcode, |f.payload|, f.mask), DataBytes(f);
    if i == |head| && j == |data| {
      assert head[..i] == head && data[..j] == data;
      assert before + head + data == before + (head + data);
    }
  }

  /** The header written in front of the data, and the data then replaced by what goes on the wire. */
  lemma {:induction false} HeaderBeforeData(s: seq<byte>, head: seq<byte>, data: seq<byte>, wire: seq<byte>)
    requires |head| <= MAX_HEADER_SIZE && |s| >= MAX_HEADER_SIZE + |data| && |wire| == |data|
    requires s[MAX_HEADER_SIZE..MAX_HEADER_SIZE + |data|] == data
    ensures var t := Overwrite(s, MAX_HEADER_SIZE - |head|, head);
      && t[MAX_HEADER_SIZE..MAX_HEADER_SIZE + |data|] == data
      && t[MAX_HEADER_SIZE - |head|..MAX_HEADER_SIZE + |data|] == head + data
      && Overwrite(t, MAX_HEADER_SIZE, wire)[MAX_HEADER_SIZE - |head|..MAX_HEADER_SIZE + |data|] == head + wire
  {
  }

  lemma {:induction false} Behind(h: seq<byte>, rest: seq<byte>, n: nat)
    requires n <= |rest|
    ensures (h + rest)[|h|..|h| + n] == rest[..n] && (h + rest)[|h| + n..] == rest[n..]
  {
  }

  /** What a call does once a length over the limit has been taken. */
  lemma {:induction false} HandleTooBig(s: Session, h: seq<byte>)
    requires s.open && HeaderPart(h) && |h| >= 2 && |h| >= LengthEnd(h[1]) && PayloadLength(h) > MAX_DATA_SIZE
    ensures Handle(s.(input := h + s.input)) == Drop(s, 1009)
  {
    assert (h + s.input)[|h|..] == s.input;
    assert Parse(h + s.input) == TooBig(|h|);
  }

  /** With the whole header taken, the data is the next octets of the stream. */
  lemma {:induction false} DataReads(h: seq<byte>, rest: seq<byte>)
    requires |h| >= 2 && |h| == LengthEnd(h[1]) + (if h[1] >= 128 then 4 else 0)
    requires PayloadLength(h) <= MAX_DATA_SIZE
    ensures var start, length := LengthEnd(h[1]), PayloadLength(h);
      if length > |rest| then Parse(h + rest) == Short
      else
        && Parse(h + rest) == Whole(
             if h[1] >= 128
             then Frame(h[0] >= 128, h[0] % 16, Some(h[start..start + 4]), Masked(rest[..length], h[start..start + 4]))
             else Frame(h[0] >= 128, h[0] % 16, None, rest[..length]), |h| + length)
        && (h + rest)[|h| + length..] == rest[length..]
  {
    hide Masked;
    var s, start, length := h + rest, LengthEnd(h[1]), PayloadLength(h);
    assert PayloadLength(s) == length;
    if length <= |rest| {
      Behind(h, rest, length);
      if h[1] >= 128 {
        SliceStable(h, rest, start, start + 4);
      }
    }
  }

  /** What a call does once the header `h` of its frame has been taken. */
  lemma {:induction false} HandleData(s: Session, h: seq<byte>)
    requires s.open && |h| >= 2 && |h| == LengthEnd(h[1]) + (if h[1] >= 128 then 4 else 0)
    requires PayloadLength(h) <= MAX_DATA_SIZE
    ensures var start, length := LengthEnd(h[1]), PayloadLength(h);
      Handle(s.(input := h + s.input)) ==
        if length > |s.input| then Drop(s.(input := []), 1002)
        else Dispatch(s.(input := s.input[length..]),
             if h[1] >= 128
             then Frame(h[0] >= 128, h[0] % 16, Some(h[start..start + 4]),
                        Masked(s.input[..length], h[start..start + 4]))
             else Frame(h[0] >= 128, h[0] % 16, None, s.input[..length]))
  {
    hide Parse, Masked, Dispatch;
    DataReads(h, s.input);
  }

  class WsClient {
    const isClient: bool
    const header: array<byte>
    var connected: bool
    var stream: seq<byte>
    var rxSize: nat
    var fin: bool
    var opcode: byte
    var masked: bool
    var payloadLen: nat
    var keyAt: nat
    ghost var messages: seq<Message>
    ghost var replies: seq<Message>     // the frames handed to sendFrame
    var sent: seq<byte>                 // the octets the connection has carried out

    ghost predicate Valid()
      reads this
    {
      header.Length == MAX_HEADER_SIZE && rxSize <= MAX_HEADER_SIZE
    }

    /** The connection with the stream as it stands. */
    ghost function After(): Session
      reads this
    {
      Session(connected, stream, messages, replies)
    }

    /** The connection with the header octets already taken put back in front of the stream. */
    ghost function Before(): Session
      requires Valid()
      reads this, header
    {
      After().(input := header[..rxSize] + stream)
    }

    constructor (client: bool, incoming: seq<byte>)
      ensures Valid() && isClient == client && rxSize == 0 && sent == [] && fresh(header)
      ensures After() == Session(true, incoming, [], [])
    {
      isClient, header := client, new byte[MAX_HEADER_SIZE];
      connected, stream, rxSize := true, incoming, 0;
      fin, opcode, masked, payloadLen, keyAt := false, 0, false, 0, 0;
      messages, replies, sent := [], [], [];
    }

    // ---------- sending ----------

    method Write(buffer: array<byte>, from: nat, n: nat) returns (total: nat)
      requires from + n <= buffer.Length
      modifies this`sent
      ensures total <= n && sent == old(sent) + buffer[from..from + total]
    {
      total := 0;
      while total < n
        invariant total <= n && sent == old(sent) + buffer[from..from + total]
      {
        var len :| 0 <= len <= n - total;
        if len == 0 {
          break;                  // timed out, or no longer connected
        }
        sent := sent + buffer[from + total..from + total + len];
        total := total + len;
      }
    }

    method RandomKey() returns (key: Key)
      ensures forall i :: 0 <= i < 4 ==> key[i] < 0xFF
    {
      var a: byte :| a < 0xFF;
      var b: byte :| b < 0xFF;
      var c: byte :| c < 0xFF;
      var d: byte :| d < 0xFF;
      key := [a, b, c, d];
    }

    function KeyUsed(key: Key): Option<Key> {
      if isClient then Some(key) else None
    }

    /** The frame in a buffer of its own, masked with `key` in place. */
    method SendInterned(code: byte, payload: array<byte>, length: nat, last: bool, key: Key) returns (ok: bool)
      requires code < 16 && length < INTERN_LIMIT && length <= payload.Length
      modifies this`sent
      ensures FrameSent(ok, old(sent), sent, Frame(last, code, KeyUsed(key), payload[..length]))
    {
      hide HeaderBytes, Masked, Overwrite, FrameSent;
      ghost var f := Frame(last, code, KeyUsed(key), payload[..length]);
      var size := HeaderSize(length, isClient);
      var buffer := new byte[length + MAX_HEADER_SIZE];
      forall i | 0 <= i < length {
        buffer[MAX_HEADER_SIZE + i] := payload[i];
      }
      ghost var copied := buffer[..];
      HeaderBeforeData(copied, HeaderBytes(last, code, length, f.mask), f.payload, DataBytes(f));
      var _ := CreateHeader(buffer, MAX_HEADER_SIZE - size, code, length, isClient, key, last);
      if isClient {
        MaskInPlace(buffer, MAX_HEADER_SIZE, length, key);
      }
      ghost var whole := buffer[..];
      assert whole[MAX_HEADER_SIZE - size..MAX_HEADER_SIZE + length] == Encode(f);
      var total := Write(buffer, MAX_HEADER_SIZE - size, length + size);
      PartOf(whole, MAX_HEADER_SIZE - size, MAX_HEADER_SIZE + length, total);
      WrittenAtOnce(old(sent), f, total);
      assert payload[..length] == f.payload && |Encode(f)| == length + size;
      return total == length + size;
    }

    /** The header written into the octets reserved in front of the payload. */
    method SendInPlace(code: byte, payload: array<byte>, length: nat, last: bool) returns (ok: bool)
      requires code < 16 && length < 0x1_0000_0000 && MAX_HEADER_SIZE + length <= payload.Length
      modifies this`sent, payload
      ensures FrameSent(ok, old(sent), sent,
        Frame(last, code, KeyUsed(ZERO_KEY), old(payload[MAX_HEADER_SIZE..MAX_HEADER_SIZE + length])))
    {
      hide HeaderBytes, Masked, Overwrite, FrameSent;
      ghost var f :=
        Frame(last, code, KeyUsed(ZERO_KEY), payload[MAX_HEADER_SIZE..MAX_HEADER_SIZE + length]);
      var size := HeaderSize(length, isClient);
      MaskedTwice(f.payload, ZERO_KEY);
      HeaderBeforeData(payload[..], HeaderBytes(last, code, length, f.mask), f.payload, f.payload);
      var _ := CreateHeader(payload, MAX_HEADER_SIZE - size, code, length, isClient, ZERO_KEY, last);
      ghost var whole := payload[..];
      assert whole[MAX_HEADER_SIZE - size..MAX_HEADER_SIZE + length] == Encode(f);
      var total := Write(payload, MAX_HEADER_SIZE - size, length + size);
      PartOf(whole, MAX_HEADER_SIZE - size, MAX_HEADER_SIZE + length, total);
      WrittenAtOnce(old(sent), f, total);
      return total == length + size;
    }

    /** The header from a buffer, then the payload as it is. */
    method SendInTwo(code: byte, payload: array<byte>, length: nat, last: bool) returns (ok: bool)
      requires code < 16 && length < 0x1_0000_0000 && length <= payload.Length
      modifies this`sent
      ensures FrameSent(ok, old(sent), sent, Frame(last, code, KeyUsed(ZERO_KEY), payload[..length]))
    {
      hide HeaderBytes, Masked, FrameSent, Encode, Overwrite;
      ghost var f := Frame(last, code, KeyUsed(ZERO_KEY), payload[..length]);
      MaskedTwice(f.payload, ZERO_KEY);
      var buffer := new byte[MAX_HEADER_SIZE];
      ghost var zeros := buffer[..];
      var size := CreateHeader(buffer, 0, code, length, isClient, ZERO_KEY, last);
      ghost var head := HeaderBytes(last, code, length, f.mask);
      OverwriteFront(zeros, head);
      assert buffer[0..size] == head;
      var first := Write(buffer, 0, size);
      assert buffer[0..0 + first] == head[..first];
      ok := first == size;
      var second := 0;
      if length > 0 {
        second := Write(payload, 0, length);
        ok := ok && second == length;
      }
      assert sent == old(sent) + head[..first] + f.payload[..second];
      WrittenInTwo(old(sent), f, first, second);
    }

    /** Octets reserved in front of a payload that carries its own header. */
    static function Reserved(headerToPayload: bool): nat {
      if headerToPayload then MAX_HEADER_SIZE else 0
    }

    /**
     One frame, when there is a connection: in a buffer of its own with a random key when it is short and
     there is heap for it, and otherwise with the zero key and the payload as it is.
     */
    method SendFrame(code: byte, payload: array<byte>, length: nat, last: bool, headerToPayload: bool, heap: bool)
      returns (ok: bool, ghost key: Key)
      requires code < 16 && length < 0x1_0000_0000
      requires Reserved(headerToPayload) + length <= payload.Length
      modifies this`sent, this`replies, payload
      ensures replies == if connected
        then old(replies)
          + [Message(code, old(payload[Reserved(headerToPayload)..Reserved(headerToPayload) + length]), last)]
        else old(replies)
      ensures if connected
        then FrameSent(ok, old(sent), sent, Frame(last, code, KeyUsed(key),
               old(payload[Reserved(headerToPayload)..Reserved(headerToPayload) + length])))
        else !ok && sent == old(sent)
      ensures key != ZERO_KEY ==> !headerToPayload && 0 < length < INTERN_LIMIT && heap
      ensures !headerToPayload ==> payload[..] == old(payload[..])
    {
      hide FrameSent;
      key := ZERO_KEY;
      if !connected {
        return false, ZERO_KEY;
      }
      ghost var data := payload[Reserved(headerToPayload)..Reserved(headerToPayload) + length];
      replies := replies + [Message(code, data, last)];
      if !headerToPayload && 0 < length < INTERN_LIMIT && heap {
        var random := RandomKey();
        key := random;
        ok := SendInterned(code, payload, length, last, random);
      } else if headerToPayload {
        ok := SendInPlace(code, payload, length, last);
      } else {
        ok := SendInTwo(code, payload, length, last);
      }
    }

    // ---------- receiving ----------

    /** clientDisconnect(client, code). */
    method ClientDisconnect(code: nat, heap: bool)
      requires 0 < code < 0x1_0000 && connected
      modifies this`connected, this`replies, this`sent
      ensures After() == Drop(old(After()), code)
    {
      var buffer := new byte[2];
      buffer[0], buffer[1] := code / 256, code % 256;
      assert buffer[0..2] == [code / 256, code % 256];
      var _, _ := SendFrame(CLOSE, buffer, 2, true, false, heap);
      connected := false;
    }

    /** One read of the socket: at least one octet, at most `limit`, as many as it likes. */
    method ReadSome(out: array<byte>, at: nat, limit: nat) returns (len: nat)
      requires stream != [] && 0 < limit && at + limit <= out.Length
      modifies this`stream, out
      ensures 0 < len <= limit && len <= |old(stream)| && stream == old(stream)[len..]
      ensures out[..] == Overwrite(old(out[..]), at, old(stream)[..len])
    {
      len :| 0 < len <= limit && len <= |stream|;
      forall i | 0 <= i < len {
        out[at + i] := stream[i];
      }
      stream := stream[len..];
    }

    /** readCb: take `n` octets, in reads of any size; false when the stream ends first. */
    method ReadBytes(out: array<byte>, at: nat, n: nat) returns (ok: bool)
      requires at + n <= out.Length
      modifies this`stream, out
      ensures ok == (n <= |old(stream)|)
      ensures ok ==> out[..] == Overwrite(old(out[..]), at, old(stream)[..n]) && stream == old(stream)[n..]
      ensures !ok ==> stream == []
    {
      hide Overwrite;
      ghost var start, all := out[..], stream;
      OverwriteNone(start, at);
      assert all[..0] == [];
      var done := 0;
      while done < n
        invariant done <= n && done <= |all| && stream == all[done..]
        invariant out[..] == Overwrite(start, at, all[..done])
      {
        if stream == [] {
          return false;
        }
        ghost var read := stream;
        var len := ReadSome(out, at + done, n - done);
        OverwriteTwice(start, at, all[..done], read[..len]);
        assert all[..done] + read[..len] == all[..done + len];
        done := done + len;
      }
      return true;
    }

    /** handleWebsocket: one frame is dealt with, or the connection is down. */
    method HandleWebsocket(heap: bool)
      requires Valid() && (connected ==> rxSize == 0)
      modifies this, header
      ensures Valid() && (connected ==> rxSize == 0)
      ensures After() == Handle(old(After()))
    {
      if rxSize == 0 {
        assert header[..rxSize] + stream == stream;
        HandleWebsocketCb(heap);
      }
    }

    /** The calls of that many turns of the client's loop. */
    method HandleRepeatedly(calls: nat, heap: bool)
      requires Valid() && (connected ==> rxSize == 0)
      modifies this, header
      ensures Valid() && (connected ==> rxSize == 0)
      ensures After() == HandleTimes(old(After()), calls)
    {
      hide Handle;
      var left := calls;
      while left > 0
        invariant Valid() && (connected ==> rxSize == 0)
        invariant HandleTimes(After(), left) == HandleTimes(old(After()), calls)
      {
        HandleWebsocket(heap);
        left := left - 1;
      }
    }

    /** Read the header up to `size` octets; false when everything has been dealt with inside. */
    method HandleWebsocketWaitFor(size: nat, heap: bool) returns (ready: bool)
      requires Valid() && connected && HeaderPart(header[..rxSize])
      requires rxSize < size ==> NextRead(header[..rxSize], size)
      requires size <= MAX_HEADER_SIZE
      modifies this, header
      ensures ready == (size <= old(rxSize))
      ensures ready ==> unchanged(this) && unchanged(header)
      ensures !ready ==> Valid() && After() == Handle(old(Before())) && (connected ==> rxSize == 0)
      decreases MAX_HEADER_SIZE - rxSize, 0
    {
      if rxSize >= size {
        return true;
      }
      ghost var before := Before();
      var ok := ReadBytes(header, rxSize, size - rxSize);
      if ok {
        rxSize := size;
        assert header[..rxSize] + stream == before.input;
        HandleWebsocketCb(heap);
      } else {
        rxSize := 0;
        assert Parse(before.input).Short?;
        ClientDisconnect(1002, heap);
      }
      return false;
    }

    /** The frame of the decoded header and the data `raw`. */
    ghost function Received(raw: seq<byte>): Frame
      requires header.Length == MAX_HEADER_SIZE && (masked ==> keyAt + 4 <= MAX_HEADER_SIZE)
      reads this, header
    {
      if masked
      then Frame(fin, opcode, Some(header[keyAt..keyAt + 4]), Masked(raw, header[keyAt..keyAt + 4]))
      else Frame(fin, opcode, None, raw)
    }

    /** The octets of the frame's data as they are read: unmasked in place, then dispatched. */
    method HandleWebsocketPayloadCb(ok: bool, payload: array<byte>, heap: bool)
      requires Valid() && connected && payload != header && opcode < 16
      requires payload.Length == payloadLen + 1 && payloadLen <= MAX_DATA_SIZE
      requires masked ==> keyAt + 4 <= MAX_HEADER_SIZE
      modifies this, payload
      ensures Valid()
      ensures ok ==> rxSize == 0 && After() == Dispatch(old(After()), old(Received(payload[..payloadLen])))
      ensures !ok ==> After() == Drop(old(After()), 1002)
    {
      hide Masked, Overwrite, FrameSent, Drop, Dispatch;
      if !ok {
        ClientDisconnect(1002, heap);
        return;
      }
      ghost var raw := payload[..payloadLen];
      payload[payloadLen] := 0;
      assert payload[..payloadLen] == raw;
      ghost var before := payload[..];
      assert payload[0..0 + payloadLen] == raw;
      if masked {
        MaskInPlace(payload, 0, payloadLen, header[keyAt..keyAt + 4]);
      }
      ghost var f := Received(raw);
      OverwriteFront(before, f.payload);
      assert payload[..payloadLen] == f.payload;
      DispatchPayload(payload, f, heap);
      rxSize := 0;
    }

    /** The switch over the opcode. */
    method DispatchPayload(payload: array<byte>, ghost f: Frame, heap: bool)
      requires connected && payload != header && opcode < 16
      requires payloadLen < payload.Length && payloadLen <= MAX_DATA_SIZE
      requires f == Frame(fin, opcode, f.mask, payload[..payloadLen])
      modifies this`messages, this`replies, this`sent, this`connected, payload
      ensures After() == Dispatch(old(After()), f)
    {
      hide FrameSent, Drop;
      ghost var data := payload[..payloadLen];
      if opcode == TEXT || opcode == BINARY || opcode == CONTINUATION || opcode == PONG {
        messages := messages + [Message(opcode, payload[..payloadLen], fin)];
      } else if opcode == PING {
        assert payload[0..0 + payloadLen] == data;
        var _, _ := SendFrame(PONG, payload, payloadLen, true, false, heap);
        messages := messages + [Message(opcode, data, fin)];
      } else if opcode == CLOSE {
        ClientDisconnect(1000, heap);
      } else {
        ClientDisconnect(1002, heap);
      }
    }

    method HandleWebsocketCb(heap: bool)
      requires Valid() && HeaderPart(header[..rxSize])
      modifies this, header
      ensures Valid() && (connected ==> rxSize == 0)
      ensures After() == if old(connected) then Handle(old(Before())) else old(After())
      decreases MAX_HEADER_SIZE - rxSize, 1
    {
      hide Parse, Masked, Overwrite, Handle, Dispatch;
      if !connected {
        return;
      }
      ghost var before := Before();
      var headerLen := 2;
      var ready := HandleWebsocketWaitFor(headerLen, heap);
      if !ready {
        return;
      }
      fin, opcode := header[0] >= 128, header[0] % 16;
      masked, payloadLen := header[1] >= 128, header[1] % 128;
      assert Before() == before;
      HandleLength(headerLen, heap);
    }

    /** Lines 411-432: the first two octets are decoded; the rest of the length is still to come. */
    method HandleLength(start: nat, heap: bool)
      requires Valid() && connected && HeaderPart(header[..rxSize]) && rxSize >= 2 && start == 2
      requires fin == (header[0] >= 128) && opcode == header[0] % 16
      requires masked == (header[1] >= 128) && payloadLen == header[1] % 128
      modifies this, header
      ensures Valid() && After() == Handle(old(Before())) && (connected ==> rxSize == 0)
      decreases MAX_HEADER_SIZE - rxSize, 1, 1
    {
      hide Handle;
      ghost var before := Before();
      var headerLen := start;
      if payloadLen == 126 {
        headerLen := headerLen + 2;
        var ready := HandleWebsocketWaitFor(headerLen, heap);
        if !ready {
          return;
        }
        payloadLen := BigEndian(0, 0, header[2], header[3]);
      } else if payloadLen == 127 {
        headerLen := headerLen + 8;
        var ready := HandleWebsocketWaitFor(headerLen, heap);
        if !ready {
          return;
        }
        if header[2] != 0 || header[3] != 0 || header[4] != 0 || header[5] != 0 {
          payloadLen := 0xFFFF_FFFF;
        } else {
          payloadLen := BigEndian(header[6], header[7], header[8], header[9]);
        }
      }
      assert Before() == before;
      HandleRest(headerLen, heap);
    }

    /** Lines 438-465: the length is known; the key and the data are still to come. */
    method HandleRest(start: nat, heap: bool)
      requires Valid() && connected && HeaderPart(header[..rxSize]) && rxSize >= 2
      requires start == LengthEnd(header[1]) <= rxSize && payloadLen == PayloadLength(header[..rxSize])
      requires fin == (header[0] >= 128) && opcode == header[0] % 16 && masked == (header[1] >= 128)
      modifies this, header
      ensures Valid() && After() == Handle(old(Before())) && (connected ==> rxSize == 0)
      decreases MAX_HEADER_SIZE - rxSize, 1, 0
    {
      hide Handle;
      ghost var before := Before();
      if payloadLen > MAX_DATA_SIZE {
        HandleTooBig(After(), header[..rxSize]);
        ClientDisconnect(1009, heap);
        return;
      }
      var headerLen := start;
      if masked {
        headerLen := headerLen + 4;
        var ready := HandleWebsocketWaitFor(headerLen, heap);
        if !ready {
          return;
        }
        keyAt := start;
      }
      assert Before() == before;
      HandlePayload(start, heap);
    }

    /** Lines 453-465: the whole header is there; read the data. */
    method HandlePayload(start: nat, heap: bool)
      requires Valid() && connected && rxSize >= 2 && rxSize == start + (if masked then 4 else 0)
      requires start == LengthEnd(header[1]) && payloadLen == PayloadLength(header[..rxSize]) <= MAX_DATA_SIZE
      requires fin == (header[0] >= 128) && opcode == header[0] % 16 && masked == (header[1] >= 128)
      requires masked ==> keyAt == start
      modifies this
      ensures Valid() && After() == Handle(old(Before())) && (connected ==> rxSize == 0)
    {
      hide Parse, Masked, Overwrite, Dispatch, Handle;
      ghost var taken, input, whole := header[..rxSize], stream, After();
      ghost var length := payloadLen;
      HandleData(whole, taken);
      ghost var goal := Handle(Before());
      assert Before() == whole.(input := taken + input);
      var payload := new byte[payloadLen + 1];
      var ok := true;
      ghost var was := payload[..];
      if payloadLen > 0 {
        ok := ReadBytes(payload, 0, payloadLen);
      } else {
        OverwriteNone(was, 0);
      }
      if ok {
        assert payload[..] == Overwrite(was, 0, input[..length]);
        OverwriteFront(was, input[..length]);
        assert payload[..length] == input[..length];
        assert masked ==> header[keyAt..keyAt + 4] == taken[start..start + 4];
        assert After() == whole.(input := input[length..]);
        assert goal == Dispatch(After(), Received(input[..length]));
        assert Received(payload[..payloadLen]) == Received(input[..length]);
      } else {
        assert After() == whole.(input := []);
        assert goal == Drop(After(), 1002);
      }
      HandleWebsocketPayloadCb(ok, payload, heap);
    }
  }
}
