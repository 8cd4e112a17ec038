/**
 The frame format of WebSockets.cpp (RFC 6455 sections 5.2 and 5.3): what createHeader and the masking
 produce, and a straight-line reading of the bytes that handleWebsocket takes from the stream.
 */
module WebSocketFrames {
  import opened Common

  const MAX_DATA_SIZE: nat := 65536
  const MAX_HEADER_SIZE: nat := 14

  const CONTINUATION: byte := 0
  const TEXT: byte := 1
  const BINARY: byte := 2
  const CLOSE: byte := 8
  const PING: byte := 9
  const PONG: byte := 10

  type Key = k: seq<byte> | |k| == 4 witness [0, 0, 0, 0]

  const ZERO_KEY: Key := [0, 0, 0, 0]

  datatype Frame = Frame(fin: bool, opcode: byte, mask: Option<Key>, payload: seq<byte>)

  /** A frame the header format can carry: a four-bit opcode and a length that fits size_t. */
  predicate Encodable(f: Frame) {
    f.opcode < 16 && |f.payload| < 0x1_0000_0000
  }

  // ---------- masking ----------

  function Pow2(n: nat): nat {
    if n == 0 then 1 else 2 * Pow2(n - 1)
  }

  /** Exclusive or of the low `width` bits, bit by bit. */
  function XorBits(a: nat, b: nat, width: nat): (r: nat)
    ensures r < Pow2(width)
    decreases width
  {
    if width == 0 then 0 else (a + b) % 2 + 2 * XorBits(a / 2, b / 2, width - 1)
  }

  function Xor(a: byte, b: byte): byte {
    assert Pow2(8) == 256;
    XorBits(a, b, 8)
  }

  lemma {:induction false} LowBitTwice(a: nat, b: nat, rest: nat)
    ensures var x := (a + b) % 2 + 2 * rest; x / 2 == rest && (x + b) % 2 + 2 * (a / 2) == a
  {
  }

  lemma {:induction false} XorBitsTwice(a: nat, b: nat, width: nat)
    requires a < Pow2(width)
    ensures XorBits(XorBits(a, b, width), b, width) == a
    decreases width
  {
    if width > 0 {
      hide XorBits, Pow2;
      HalfBelow(a, width);
      XorBitsTwice(a / 2, b / 2, width - 1);
      XorBitsNext(a, b, width);
      XorBitsNext(XorBits(a, b, width), b, width);
      LowBitTwice(a, b, XorBits(a / 2, b / 2, width - 1));
    }
  }

  lemma {:induction false} XorBitsZero(a: nat, width: nat)
    requires a < Pow2(width)
    ensures XorBits(a, 0, width) == a
    decreases width
  {
    if width > 0 {
      HalfBelow(a, width);
      XorBitsZero(a / 2, width - 1);
      XorBitsNext(a, 0, width);
    }
  }

  lemma {:induction false} XorBitsNext(a: nat, b: nat, width: nat)
    requires width > 0
    ensures XorBits(a, b, width) == (a + b) % 2 + 2 * XorBits(a / 2, b / 2, width - 1)
  {
  }

  lemma {:induction false} HalfBelow(a: nat, width: nat)
    requires width > 0 && a < Pow2(width)
    ensures a / 2 < Pow2(width - 1)
  {
  }

  lemma {:induction false} XorTwice(a: byte, b: byte)
    ensures Xor(Xor(a, b), b) == a && Xor(a, 0) == a
  {
    assert Pow2(8) == 256;
    XorBitsTwice(a, b, 8);
    XorBitsZero(a, 8);
  }

  /** Section 5.3: octet i of the data is combined with octet i mod 4 of the key. */
  function Masked(data: seq<byte>, key: Key): (r: seq<byte>)
    ensures |r| == |data|
  {
    seq(|data|, i requires 0 <= i < |data| => Xor(data[i], key[i % 4]))
  }

  /** Masking is undone by masking again, and the zero key leaves data as it is. */
  lemma {:induction false} MaskedTwice(data: seq<byte>, key: Key)
    ensures Masked(Masked(data, key), key) == data
    ensures Masked(data, ZERO_KEY) == data
  {
    forall i | 0 <= i < |data|
      ensures Masked(Masked(data, key), key)[i] == data[i] && Masked(data, ZERO_KEY)[i] == data[i]
    {
      XorTwice(data[i], key[i % 4]);
      assert ZERO_KEY[i % 4] == 0;
    }
  }

  // ---------- what is sent ----------

  /** Size of the length field after the second octet. */
  function ExtendedSize(length: nat): nat {
    if length < 126 then 0 else if length < 0xFFFF then 2 else 8
  }

  function HeaderSize(length: nat, mask: bool): nat {
    2 + ExtendedSize(length) + if mask then 4 else 0
  }

  function LengthBytes(length: nat): (r: seq<byte>)
    requires length < 0x1_0000_0000
    ensures |r| == ExtendedSize(length)
  {
    if length < 126 then []
    else if length < 0xFFFF then [length / 256 % 256, length % 256]
    else [0, 0, 0, 0, length / 256 / 256 / 256 % 256, length / 256 / 256 % 256, length / 256 % 256, length % 256]
  }

  function HeaderBytes(fin: bool, opcode: byte, length: nat, mask: Option<Key>): (r: seq<byte>)
    requires opcode < 16 && length < 0x1_0000_0000
    ensures |r| == HeaderSize(length, mask.Some?)
  {
    [(if fin then 128 else 0) + opcode,
     (if mask.Some? then 128 else 0)
     + if length < 126 then length else if length < 0xFFFF then 126 else 127]
    + LengthBytes(length)
    + if mask.Some? then mask.value else []
  }

  /** The payload as it goes on the wire. */
  function DataBytes(f: Frame): (r: seq<byte>)
    ensures |r| == |f.payload|
  {
    if f.mask.Some? then Masked(f.payload, f.mask.value) else f.payload
  }

  function Encode(f: Frame): seq<byte>
    requires Encodable(f)
  {
    HeaderBytes(f.fin, f.opcode, |f.payload|, f.mask) + DataBytes(f)
  }

  // ---------- what is received ----------

  datatype Parsed =
    | Short                                  // the stream ends inside the frame
    | TooBig(used: nat)                      // more than MAX_DATA_SIZE announced
    | Whole(frame: Frame, used: nat)

  /** Octets up to the end of the length field, from the second octet. */
  function LengthEnd(second: byte): nat {
    if second % 128 == 126 then 4 else if second % 128 == 127 then 10 else 2
  }

  function BigEndian(a: nat, b: nat, c: nat, d: nat): nat {
    ((a * 256 + b) * 256 + c) * 256 + d
  }

  function PayloadLength(s: seq<byte>): nat
    requires |s| >= 2 && |s| >= LengthEnd(s[1])
  {
    if s[1] % 128 == 126 then BigEndian(0, 0, s[2], s[3])
    else if s[1] % 128 == 127 then
      if s[2] != 0 || s[3] != 0 || s[4] != 0 || s[5] != 0 then 0xFFFF_FFFF
      else BigEndian(s[6], s[7], s[8], s[9])
    else s[1] % 128
  }

  /** Read one frame from the front of `s`. */
  function Parse(s: seq<byte>): (r: Parsed)
    ensures !r.Short? ==> r.used <= |s|
  {
    if |s| < 2 || |s| < LengthEnd(s[1]) then Short
    else
      var start := LengthEnd(s[1]);
      var length := PayloadLength(s);
      if length > MAX_DATA_SIZE then TooBig(start)
      else
        var data := if s[1] >= 128 then start + 4 else start;
        if |s| < data + length then Short
        else
          var fin, opcode, raw := s[0] >= 128, s[0] % 16, s[data..data + length];
          if s[1] >= 128
          then Whole(Frame(fin, opcode, Some(s[start..data]), Masked(raw, s[start..data])), data + length)
          else Whole(Frame(fin, opcode, None, raw), data + length)
  }

  lemma {:induction false} LengthReads(length: nat, s: seq<byte>)
    requires length < 0x1_0000_0000 && |s| >= 2 + ExtendedSize(length)
    requires s[1] % 128 == (if length < 126 then length else if length < 0xFFFF then 126 else 127)
    requires s[2..2 + ExtendedSize(length)] == LengthBytes(length)
    ensures LengthEnd(s[1]) == 2 + ExtendedSize(length) && PayloadLength(s) == length
  {
    var field := s[2..2 + ExtendedSize(length)];
    if length >= 0xFFFF {
      assert field[0] == s[2] && field[1] == s[3] && field[2] == s[4] && field[3] == s[5];
      assert field[4] == s[6] && field[5] == s[7] && field[6] == s[8] && field[7] == s[9];
      LongLength(length);
    } else if length >= 126 {
      assert field[0] == s[2] && field[1] == s[3];
    }
  }

  lemma {:induction false} LongLength(length: nat)
    requires length < 0x1_0000_0000
    ensures BigEndian(length / 256 / 256 / 256 % 256, length / 256 / 256 % 256, length / 256 % 256, length % 256)
         == length
  {
  }

  lemma {:induction false} FlagReads(flag: bool, low: nat, octet: nat)
    requires octet == (if flag then 128 else 0) + low && low < 128
    ensures (octet >= 128) == flag && octet % 128 == low && (low < 16 ==> octet % 16 == low)
  {
  }

  lemma {:induction false} HeaderReads(f: Frame, rest: seq<byte>)
    requires Encodable(f)
    ensures var s := Encode(f) + rest; var start := 2 + ExtendedSize(|f.payload|);
      && |s| >= start && (s[0] >= 128) == f.fin && s[0] % 16 == f.opcode && (s[1] >= 128) == f.mask.Some?
      && LengthEnd(s[1]) == start && PayloadLength(s) == |f.payload|
  {
    hide Masked, LengthBytes, PayloadLength, LengthEnd;
    var s, n := Encode(f) + rest, |f.payload|;
    var h := HeaderBytes(f.fin, f.opcode, n, f.mask);
    assert s[0] == h[0] && s[1] == h[1];
    FlagReads(f.fin, f.opcode, h[0]);
    FlagReads(f.mask.Some?, if n < 126 then n else if n < 0xFFFF then 126 else 127, h[1]);
    assert s[2..2 + ExtendedSize(n)] == h[2..2 + ExtendedSize(n)] == LengthBytes(n);
    LengthReads(n, s);
  }

  lemma {:induction false} PayloadReads(f: Frame, rest: seq<byte>)
    requires Encodable(f)
    ensures var s := Encode(f) + rest; var start := 2 + ExtendedSize(|f.payload|);
      var data := if f.mask.Some? then start + 4 else start;
      && |s| >= data + |f.payload| == |Encode(f)|
      && s[data..data + |f.payload|] == DataBytes(f)
      && (f.mask.Some? ==> s[start..data] == f.mask.value)
  {
    hide Masked, LengthBytes;
    var s, h := Encode(f) + rest, HeaderBytes(f.fin, f.opcode, |f.payload|, f.mask);
    assert s == h + DataBytes(f) + rest;
    if f.mask.Some? {
      assert h[|h| - 4..] == f.mask.value;
      assert s[|h| - 4..|h|] == h[|h| - 4..];
    }
  }

  /**
   Reading back an encoded frame gives the frame and stops at its end, whatever follows; a frame whose
   payload is over the limit is refused.
   */
  lemma {:induction false} ParseInvertsEncode(f: Frame, rest: seq<byte>)
    requires Encodable(f)
    ensures |f.payload| <= MAX_DATA_SIZE ==> Parse(Encode(f) + rest) == Whole(f, |Encode(f)|)
    ensures |f.payload| > MAX_DATA_SIZE ==> Parse(Encode(f) + rest) == TooBig(2 + ExtendedSize(|f.payload|))
  {
    hide Encode, Masked, HeaderBytes, PayloadLength, LengthEnd, ExtendedSize;
    HeaderReads(f, rest);
    PayloadReads(f, rest);
    if f.mask.Some? {
      MaskedTwice(f.payload, f.mask.value);
    }
  }

  /** Encoding is uniquely decodable: no frame's encoding continues another's. */
  lemma {:induction false} EncodePrefixFree(f: Frame, g: Frame, rest: seq<byte>)
    requires Encodable(f) && |f.payload| <= MAX_DATA_SIZE && Encodable(g) && |g.payload| <= MAX_DATA_SIZE
    requires Encode(f) + rest == Encode(g)
    ensures f == g && rest == []
  {
    ParseInvertsEncode(f, rest);
    ParseInvertsEncode(g, []);
    assert Encode(g) + [] == Encode(g);
  }

  /** `s` starts with a frame header whose length field reads as `length`. */
  predicate Announces(s: seq<byte>, length: nat) {
    |s| >= 2 && |s| >= LengthEnd(s[1]) && PayloadLength(s) == length
  }

  lemma {:induction false} NoShorter(s: seq<byte>, length: nat)
    requires Announces(s, length) && length != 0xFFFF
    ensures LengthEnd(s[1]) >= 2 + ExtendedSize(length)
  {
  }

  /**
   Section 5.2 demands the shortest length field that the receiver reads as the length. The encoder writes it for
   every length but 65535, which has a shorter one.
   */
  lemma {:induction false} LengthFieldMinimal(length: nat)
    requires length < 0x1_0000_0000
    ensures (forall s :: Announces(s, length) ==> LengthEnd(s[1]) >= 2 + ExtendedSize(length)) <==> length != 0xFFFF
  {
    if length == 0xFFFF {
      var s := [0, 126, 255, 255];
      assert Announces(s, length) && LengthEnd(s[1]) == 4;
    } else {
      forall s | Announces(s, length) ensures LengthEnd(s[1]) >= 2 + ExtendedSize(length) {
        NoShorter(s, length);
      }
    }
  }

  /** The three reserved bits of the first octet make no difference to what is read. */
  lemma {:induction false} ReservedBitsIgnored(s: seq<byte>, first: byte)
    requires s != [] && first / 128 == s[0] / 128 && first % 16 == s[0] % 16
    ensures Parse(s[0 := first]) == Parse(s)
  {
    hide Masked;
    var t := s[0 := first];
    if |s| >= 2 && |s| >= LengthEnd(s[1]) {
      var start, length := LengthEnd(s[1]), PayloadLength(s);
      var data := if s[1] >= 128 then start + 4 else start;
      assert PayloadLength(t) == length;
      if length <= MAX_DATA_SIZE && |s| >= data + length {
        assert t[data..data + length] == s[data..data + length];
        assert |s| >= start + 4 ==> t[start..start + 4] == s[start..start + 4];
      }
    }
  }
}
