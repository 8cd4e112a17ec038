/** Header creation and masking of WebSockets.cpp, in place on byte buffers. */
module WebSocketBuffers {
  import opened ByteBuffers
  import opened Common
  import opened WebSocketFrames

  /** Write the extended length at `at`. */
  method PutLength(buffer: array<byte>, at: nat, length: nat)
    requires length < 0x1_0000_0000 && at + ExtendedSize(length) <= buffer.Length
    modifies buffer
    ensures buffer[..] == Overwrite(old(buffer[..]), at, LengthBytes(length))
  {
    if length < 126 {
    } else if length < 0xFFFF {
      buffer[at], buffer[at + 1] := length / 256 % 256, length % 256;
    } else {
      buffer[at], buffer[at + 1], buffer[at + 2], buffer[at + 3] := 0, 0, 0, 0;
      buffer[at + 4], buffer[at + 5] := length / 256 / 256 / 256 % 256, length / 256 / 256 % 256;
      buffer[at + 6], buffer[at + 7] := length / 256 % 256, length % 256;
    }
  }

  /** Write the masking key at `at`. */
  method PutKey(buffer: array<byte>, at: nat, key: Key)
    requires at + 4 <= buffer.Length
    modifies buffer
    ensures buffer[..] == Overwrite(old(buffer[..]), at, key)
  {
    buffer[at], buffer[at + 1], buffer[at + 2], buffer[at + 3] := key[0], key[1], key[2], key[3];
  }

  /** Write the header at `at`; every other octet of the buffer keeps its value. */
  method CreateHeader(buffer: array<byte>, at: nat, code: byte, length: nat, mask: bool, key: Key,
                             last: bool)
    returns (size: nat)
    requires code < 16 && length < 0x1_0000_0000
    requires at + HeaderSize(length, mask) <= buffer.Length
    modifies buffer
    ensures size == HeaderSize(length, mask)
    ensures buffer[..]
         == Overwrite(old(buffer[..]), at, HeaderBytes(last, code, length, if mask then Some(key) else None))
  {
    hide LengthBytes, Overwrite;
    size := if length < 126 then 2 else if length < 0xFFFF then 4 else 10;
    if mask {
      size := size + 4;
    }
    var low: byte := if length < 126 then length else if length < 0xFFFF then 126 else 127;
    ghost var was: seq<byte> := buffer[..];
    ghost var first: byte := (if last then 128 else 0) + code;
    ghost var second: byte := (if mask then 128 else 0) + low;
    buffer[at] := if last then 128 else 0;
    buffer[at] := buffer[at] + code;
    buffer[at + 1] := if mask then 128 else 0;
    buffer[at + 1] := buffer[at + 1] + low;
    assert buffer[..] == was[at := first][at + 1 := second];
    OverwritePair(was, at, first, second);
    PutLength(buffer, at + 2, length);
    OverwriteTwice(was, at, [first, second], LengthBytes(length));
    if mask {
      PutKey(buffer, at + 2 + ExtendedSize(length), key);
      OverwriteTwice(was, at, [first, second] + LengthBytes(length), key);
    } else {
      assert [first, second] + LengthBytes(length) + [] == [first, second] + LengthBytes(length);
    }
  }

  /** `x` octets from `at` are combined with the key and the rest is as it was. */
  ghost predicate MaskedSoFar(now: seq<byte>, was: seq<byte>, at: nat, x: nat, key: Key) {
    && |now| == |was| && at + x <= |was|
    && forall i :: 0 <= i < |was| ==> now[i] == if at <= i < at + x then Xor(was[i], key[(i - at) % 4]) else was[i]
  }

  lemma {:induction false} MaskedWhole(now: seq<byte>, was: seq<byte>, at: nat, length: nat, key: Key)
    requires MaskedSoFar(now, was, at, length, key)
    ensures now == Overwrite(was, at, Masked(was[at..at + length], key))
  {
    hide Xor;
    var wire := Overwrite(was, at, Masked(was[at..at + length], key));
    forall i | 0 <= i < |was| ensures now[i] == wire[i] {
    }
  }

  lemma {:induction false} MaskedNext(now: seq<byte>, was: seq<byte>, at: nat, x: nat, key: Key)
    requires MaskedSoFar(now, was, at, x, key) && at + x < |was|
    ensures MaskedSoFar(now[at + x := Xor(now[at + x], key[x % 4])], was, at, x + 1, key)
  {
    hide Xor;
  }

  /** Combine `length` octets from `at` with the key, in place. */
  method MaskInPlace(buffer: array<byte>, at: nat, length: nat, key: Key)
    requires at + length <= buffer.Length
    modifies buffer
    ensures buffer[..] == Overwrite(old(buffer[..]), at, Masked(old(buffer[at..at + length]), key))
  {
    hide Xor;
    ghost var was := buffer[..];
    assert MaskedSoFar(was, was, at, 0, key);
    var x := 0;
    while x < length
      invariant x <= length && MaskedSoFar(buffer[..], was, at, x, key)
    {
      hide MaskedSoFar;
      ghost var now := buffer[..];
      MaskedNext(now, was, at, x, key);
      buffer[at + x] := Xor(buffer[at + x], key[x % 4]);
      assert buffer[..] == now[at + x := Xor(now[at + x], key[x % 4])];
      x := x + 1;
    }
    MaskedWhole(buffer[..], was, at, length, key);
    assert was[at..at + length] == old(buffer[at..at + length]);
  }
}
