/**
 The base framing of section 5.2 of RFC 6455 and the masking of its section 5.3, written out on octets and bits: what
 WebSockets.cpp writes and what it takes for a frame are related to these, not to its own helpers.
 */
module WebSocketStandard {
  import opened Common
  import opened WebSocketFrames
  import opened WebSocketSessions

  // ---------- masking, bit by bit ----------

  /** A bit of an octet, the least significant one being bit 0. */
  function Bit(x: byte, k: nat): nat
    requires k < 8
  {
    match k
    case 0 => x % 2
    case 1 => x / 2 % 2
    case 2 => x / 4 % 2
    case 3 => x / 8 % 2
    case 4 => x / 16 % 2
    case 5 => x / 32 % 2
    case 6 => x / 64 % 2
    case _ => x / 128 % 2
  }

  /** The octets differ exactly where the key octet has a one. */
  predicate Combined(x: byte, y: byte, key: byte) {
    forall k :: 0 <= k < 8 ==> Bit(x, k) == (Bit(y, k) + Bit(key, k)) % 2
  }

  function Halved(x: nat, k: nat): nat
    decreases k
  {
    if k == 0 then x else Halved(x / 2, k - 1)
  }

  lemma {:induction false} HalfOfSum(low: nat, rest: nat)
    requires low < 2
    ensures (low + 2 * rest) / 2 == rest && (low + 2 * rest) % 2 == low
  {
  }

  /** Bit k of the loop's result, for the octets halved k times. */
  lemma {:induction false} XorBitsAt(a: nat, b: nat, width: nat, k: nat)
    requires k < width
    ensures Halved(XorBits(a, b, width), k) % 2 == (Halved(a, k) + Halved(b, k)) % 2
    decreases k
  {
    XorBitsNext(a, b, width);
    HalfOfSum((a + b) % 2, XorBits(a / 2, b / 2, width - 1));
    if k > 0 {
      XorBitsAt(a / 2, b / 2, width - 1, k - 1);
    }
  }

  lemma {:induction false} HalvedMore(x: nat, k: nat)
    ensures Halved(x, k + 4) == Halved(x / 16, k)
  {
    assert Halved(x, k + 4) == Halved(x / 2, k + 3) == Halved(x / 2 / 2, k + 2);
    assert Halved(x / 2 / 2, k + 2) == Halved(x / 2 / 2 / 2, k + 1) == Halved(x / 2 / 2 / 2 / 2, k);
  }

  lemma {:induction false} HalvedFew(x: nat)
    ensures Halved(x, 0) == x && Halved(x, 1) == x / 2 && Halved(x, 2) == x / 4 && Halved(x, 3) == x / 8
  {
  }

  lemma {:induction false} BitIsHalved(x: byte, k: nat)
    requires k < 8
    ensures Bit(x, k) == Halved(x, k) % 2
  {
    HalvedFew(x);
    HalvedFew(x / 16);
    if k >= 4 {
      HalvedMore(x, k - 4);
    }
    hide Halved;
    assert x / 16 / 2 == x / 32 && x / 16 / 4 == x / 64 && x / 16 / 8 == x / 128;
  }

  lemma {:induction false} SameHalves(x: nat, y: nat, n: nat)
    requires (forall k :: 0 <= k < n ==> Halved(x, k) % 2 == Halved(y, k) % 2) && Halved(x, n) == Halved(y, n)
    ensures x == y
    decreases n
  {
    if n > 0 {
      assert Halved(x, 0) == x && Halved(y, 0) == y;
      forall k | 0 <= k < n - 1 ensures Halved(x / 2, k) % 2 == Halved(y / 2, k) % 2 {
        assert Halved(x, k + 1) == Halved(x / 2, k) && Halved(y, k + 1) == Halved(y / 2, k);
      }
      SameHalves(x / 2, y / 2, n - 1);
    }
  }

  /** An octet is its bits. */
  lemma {:induction false} SameBits(x: byte, y: byte)
    requires forall k :: 0 <= k < 8 ==> Bit(x, k) == Bit(y, k)
    ensures x == y
  {
    hide Bit;
    forall k | 0 <= k < 8 ensures Halved(x, k) % 2 == Halved(y, k) % 2 {
      assert Bit(x, k) == Bit(y, k);
      BitIsHalved(x, k);
      BitIsHalved(y, k);
    }
    HalvedMore(x, 4);
    HalvedMore(y, 4);
    HalvedMore(x / 16, 0);
    HalvedMore(y / 16, 0);
    assert x / 16 / 16 == 0 && y / 16 / 16 == 0;
    SameHalves(x, y, 8);
  }

  /** Every bit of the exclusive or is the sum of the bits, modulo 2. */
  lemma {:induction false} XorByBits(a: byte, b: byte)
    ensures Combined(Xor(a, b), a, b)
  {
    hide Bit, XorBits, Halved;
    forall k | 0 <= k < 8 ensures Bit(Xor(a, b), k) == (Bit(a, k) + Bit(b, k)) % 2 {
      XorBitsAt(a, b, 8, k);
      BitIsHalved(a, k);
      BitIsHalved(b, k);
      BitIsHalved(Xor(a, b), k);
      OddSum(Halved(a, k), Halved(b, k));
    }
  }

  lemma {:induction false} OddSum(a: nat, b: nat)
    ensures (a + b) % 2 == (a % 2 + b % 2) % 2
  {
  }

  /** And only one octet combines so. */
  lemma {:induction false} CombinedIsXor(x: byte, y: byte, key: byte)
    ensures Combined(x, y, key) <==> x == Xor(y, key)
    ensures Combined(x, y, key) <==> y == Xor(x, key)
  {
    hide Bit, Xor;
    XorByBits(y, key);
    XorByBits(x, key);
    XorTwice(y, key);
    XorTwice(x, key);
    if Combined(x, y, key) {
      SameBits(x, Xor(y, key));
    }
  }

  /** Octet i of masked data is octet i combined with octet i modulo 4 of the key. */
  predicate IsMasked(wire: seq<byte>, data: seq<byte>, key: Key) {
    |wire| == |data| && forall i :: 0 <= i < |wire| ==> Combined(wire[i], data[i], key[i % 4])
  }

  lemma {:induction false} MaskedByBits(wire: seq<byte>, data: seq<byte>, key: Key)
    ensures IsMasked(wire, data, key) <==> wire == Masked(data, key)
    ensures IsMasked(wire, data, key) <==> data == Masked(wire, key)
  {
    hide Combined, Xor;
    if |wire| == |data| {
      forall i | 0 <= i < |wire|
        ensures Combined(wire[i], data[i], key[i % 4])
           <==> wire[i] == Masked(data, key)[i]
        ensures Combined(wire[i], data[i], key[i % 4])
           <==> data[i] == Masked(wire, key)[i]
      {
        CombinedIsXor(wire[i], data[i], key[i % 4]);
      }
    }
  }

  // ---------- framing ----------

  /** The length field of a frame and where it ends. */
  datatype Length = Length(value: nat, end: nat)

  /** A network-order number. */
  function Number(octets: seq<byte>): nat {
    if octets == [] then 0 else Number(octets[..|octets| - 1]) * 256 + octets[|octets| - 1]
  }

  predicate HasLength(s: seq<byte>, n: Length) {
    && |s| >= 2 && |s| >= n.end
    && (s[1] % 128 <= 125 ==> n == Length(s[1] % 128, 2))
    && (s[1] % 128 == 126 ==> n.end == 4 && n.value == Number(s[2..4]))
    && (s[1] % 128 == 127 ==> n.end == 10 && n.value == Number(s[2..10]))
  }

  /** `s` is exactly one frame; the reserved bits may be anything and the length field longer than it need be. */
  predicate IsFrame(s: seq<byte>, f: Frame, end: nat) {
    && HasLength(s, Length(|f.payload|, end))
    && (s[0] >= 128 <==> f.fin) && s[0] % 16 == f.opcode && (s[1] >= 128 <==> f.mask.Some?)
    && (f.mask.None? ==> s[end..] == f.payload)
    && (f.mask.Some? ==> |s| >= end + 4 && s[end..end + 4] == f.mask.value
                         && IsMasked(s[end + 4..], f.payload, f.mask.value))
  }

  lemma {:induction false} TwoOctets(t: seq<byte>)
    requires |t| == 2
    ensures Number(t) == BigEndian(0, 0, t[0], t[1])
  {
    assert Number(t[..1]) == t[0];
  }

  lemma {:induction false} FourOctets(t: seq<byte>)
    requires |t| == 4
    ensures Number(t) == BigEndian(t[0], t[1], t[2], t[3])
  {
    TwoOctets(t[..2]);
    assert t[..3][..2] == t[..2];
    assert Number(t[..3]) == Number(t[..2]) * 256 + t[2];
  }

  lemma {:induction false} NumberJoins(high: seq<byte>, low: seq<byte>)
    requires |low| == 4
    ensures Number(high + low) == Number(high) * 0x1_0000_0000 + Number(low)
  {
    FourOctets(low);
    var a, b, c := high + low[..1], high + low[..2], high + low[..3];
    assert (high + low)[..|high| + 3] == c && c[..|high| + 2] == b && b[..|high| + 1] == a && a[..|high|] == high;
    assert Number(c) == Number(b) * 256 + low[2] && Number(b) == Number(a) * 256 + low[1];
    assert Number(a) == Number(high) * 256 + low[0];
  }

  lemma {:induction false} EightOctets(t: seq<byte>)
    requires |t| == 8
    ensures Number(t) == BigEndian(t[0], t[1], t[2], t[3]) * 0x1_0000_0000 + BigEndian(t[4], t[5], t[6], t[7])
  {
    assert t == t[..4] + t[4..];
    NumberJoins(t[..4], t[4..]);
    FourOctets(t[..4]);
    FourOctets(t[4..]);
  }

  /** The client's reading of a length field, which takes what passes 32 bits for the largest size. */
  lemma {:induction false} LengthIs(s: seq<byte>)
    requires |s| >= 2 && |s| >= LengthEnd(s[1])
    ensures exists n: nat ::
      && HasLength(s, Length(n, LengthEnd(s[1])))
      && PayloadLength(s) == if n < 0x1_0000_0000 then n else 0xFFFF_FFFF
  {
    if s[1] % 128 == 126 {
      TwoOctets(s[2..4]);
      assert HasLength(s, Length(Number(s[2..4]), 4));
    } else if s[1] % 128 == 127 {
      EightOctets(s[2..10]);
      var n := Number(s[2..10]);
      assert s[2..10][4..] == s[6..10];
      FourOctets(s[6..10]);
      assert HasLength(s, Length(n, 10));
    } else {
      assert HasLength(s, Length(s[1] % 128, 2));
    }
  }

  lemma {:induction false} LengthAlone(s: seq<byte>, n: Length, m: Length)
    requires HasLength(s, n) && HasLength(s, m)
    ensures n == m && n.end == LengthEnd(s[1])
  {
  }

  /** The client takes exactly the frames of at most 65536 octets, and stops at their end. */
  lemma {:induction false} ParsesExactly(s: seq<byte>, f: Frame, used: nat)
    requires used <= |s|
    ensures Parse(s) == Whole(f, used)
       <==> |f.payload| <= 65536 && exists end: nat :: IsFrame(s[..used], f, end)
  {
    hide Masked, IsMasked, HasLength, PayloadLength;
    if Parse(s) == Whole(f, used) {
      ParsedIsFrame(s, f, used);
    }
    if |f.payload| <= 65536 && exists end: nat :: IsFrame(s[..used], f, end) {
      var end: nat :| IsFrame(s[..used], f, end);
      FrameIsParsed(s[..used], f, end);
      ParseStable(s[..used], s[used..]);
      assert s[..used] + s[used..] == s;
    }
  }

  lemma {:induction false} SliceOf(s: seq<byte>, from: nat, to: nat, end: nat)
    requires from <= to <= end <= |s|
    ensures s[..end][from..to] == s[from..to] && (to == end ==> s[..end][from..] == s[from..to])
  {
  }

  lemma {:induction false} ParsedIsFrame(s: seq<byte>, f: Frame, used: nat)
    requires Parse(s) == Whole(f, used)
    ensures |f.payload| <= 65536 && IsFrame(s[..used], f, LengthEnd(s[1]))
  {
    hide Masked, IsMasked, HasLength, PayloadLength;
    var t, end := s[..used], LengthEnd(s[1]);
    PrefixLength(s, used);
    LengthIs(t);
    var data := if s[1] >= 128 then end + 4 else end;
    assert used == data + |f.payload|;
    SliceOf(s, data, used, used);
    if f.mask.Some? {
      SliceOf(s, end, data, used);
      MaskedByBits(t[data..], f.payload, f.mask.value);
    }
  }

  lemma {:induction false} PrefixLength(s: seq<byte>, used: nat)
    requires used <= |s| && |s| >= 2 && used >= LengthEnd(s[1])
    ensures PayloadLength(s[..used]) == PayloadLength(s)
  {
  }

  lemma {:induction false} FrameIsParsed(t: seq<byte>, f: Frame, end: nat)
    requires IsFrame(t, f, end) && |f.payload| <= 65536
    ensures Parse(t) == Whole(f, |t|)
  {
    hide Masked, IsMasked, PayloadLength;
    HasEnd(t, Length(|f.payload|, end));
    LengthIs(t);
    var n: nat :| HasLength(t, Length(n, end)) && PayloadLength(t) == if n < 0x1_0000_0000 then n else 0xFFFF_FFFF;
    LengthAlone(t, Length(n, end), Length(|f.payload|, end));
    hide HasLength;
    if f.mask.Some? {
      MaskedByBits(t[end + 4..], f.payload, f.mask.value);
      MaskedSize(t[end + 4..], f.payload, f.mask.value);
      assert |t| == end + 4 + |f.payload|;
      assert t[end + 4..end + 4 + |f.payload|] == t[end + 4..];
    } else {
      assert t[end..end + |f.payload|] == t[end..];
    }
  }

  lemma {:induction false} MaskedSize(wire: seq<byte>, data: seq<byte>, key: Key)
    requires IsMasked(wire, data, key)
    ensures |wire| == |data|
  {
  }

  lemma {:induction false} HasEnd(s: seq<byte>, n: Length)
    requires HasLength(s, n)
    ensures n.end == LengthEnd(s[1]) && |s| >= n.end
  {
  }

  /** What is sent for a frame is that frame, reserved bits zero, in a field of the size its length asks for. */
  lemma {:induction false} EncodeIsFrame(f: Frame)
    requires f.opcode < 16 && |f.payload| < 0x1_0000_0000
    ensures var s, n := Encode(f), |f.payload|;
      && |s| >= 2 && s[0] == (if f.fin then 128 else 0) + f.opcode
      && IsFrame(s, f, if n <= 125 then 2 else if n <= 65534 then 4 else 10)
  {
    hide Masked, IsMasked, LengthBytes, HasLength;
    var s, n := Encode(f), |f.payload|;
    var end := 2 + ExtendedSize(n);
    assert s + [] == s;
    HeaderReads(f, []);
    PayloadReads(f, []);
    EncodedLength(f);
    var data := if f.mask.Some? then end + 4 else end;
    assert s[data..data + n] == s[data..];
    if f.mask.Some? {
      MaskedByBits(s[data..], f.payload, f.mask.value);
    }
  }

  lemma {:induction false} EncodedLength(f: Frame)
    requires Encodable(f)
    ensures |Encode(f)| >= 2 && HasLength(Encode(f), Length(|f.payload|, 2 + ExtendedSize(|f.payload|)))
  {
    hide Masked, LengthEnd, PayloadLength;
    var s, n := Encode(f), |f.payload|;
    var h := HeaderBytes(f.fin, f.opcode, n, f.mask);
    assert s[1] == h[1];
    assert s[2..2 + ExtendedSize(n)] == h[2..2 + ExtendedSize(n)] == LengthBytes(n);
    FlagReads(f.mask.Some?, if n < 126 then n else if n < 0xFFFF then 126 else 127, h[1]);
    LengthNumber(n);
  }

  lemma {:induction false} OctetsMake(n: nat)
    requires n < 0x1_0000_0000
    ensures BigEndian(n / 256 / 256 / 256 % 256, n / 256 / 256 % 256, n / 256 % 256, n % 256) == n
  {
    var a, b := n / 256, n / 256 / 256;
    assert n == a * 256 + n % 256 && a == b * 256 + a % 256 && b == b / 256 * 256 + b % 256;
    assert b / 256 < 256;
  }

  lemma {:induction false} LengthNumber(n: nat)
    requires n < 0x1_0000_0000
    ensures n >= 126 ==> Number(LengthBytes(n)) == n
  {
    hide BigEndian;
    OctetsMake(n);
    var t := LengthBytes(n);
    if 126 <= n < 0xFFFF {
      TwoOctets(t);
      assert n / 256 / 256 % 256 == 0 && n / 256 / 256 / 256 % 256 == 0;
    } else if 0xFFFF <= n {
      EightOctets(t);
      OctetsMake(0);
    }
  }

  // ---------- what is given to the application ----------

  /**
   Of the frames that are taken, those with opcodes 0, 1, 2, 9 and 10 are given on as they are, and a ping is answered
   by a pong with its payload; opcode 8 is answered by a close frame with code 1000, every other by 1002.
   */
  lemma {:induction false} GivenOn(s: Session, f: Frame, end: nat, used: nat)
    requires s.open && used <= |s.input| && IsFrame(s.input[..used], f, end) && |f.payload| <= 65536
    ensures var t := Handle(s);
      && t.input == s.input[used..] && (t.open <==> f.opcode in {0, 1, 2, 9, 10})
      && t.messages == (if t.open then s.messages + [Message(f.opcode, f.payload, f.fin)] else s.messages)
      && t.replies == s.replies
         + (if f.opcode == 9 then [Message(10, f.payload, true)]
            else if f.opcode in {0, 1, 2, 10} then []
            else if f.opcode == 8 then [Message(8, [3, 232], true)]
            else [Message(8, [3, 234], true)])
  {
    hide Parse, IsFrame;
    ParsesExactly(s.input, f, used);
    assert s.replies + [] == s.replies;
  }

  /** A frame announced as longer is refused with code 1009 behind its length field. */
  lemma {:induction false} LongerRefused(s: Session, n: Length)
    requires s.open && HasLength(s.input, n) && n.value > 65536
    ensures Handle(s)
         == s.(open := false, input := s.input[n.end..], replies := s.replies + [Message(8, [3, 241], true)])
  {
    hide PayloadLength;
    HasEnd(s.input, n);
    LengthIs(s.input);
    var m: nat :|
      && HasLength(s.input, Length(m, LengthEnd(s.input[1])))
      && PayloadLength(s.input) == if m < 0x1_0000_0000 then m else 0xFFFF_FFFF;
    LengthAlone(s.input, n, Length(m, LengthEnd(s.input[1])));
    hide HasLength;
  }

  // ---------- the examples of section 5.7 ----------

  const HELLO: seq<byte> := [0x48, 0x65, 0x6c, 0x6c, 0x6f]
  const EXAMPLE_KEY: Key := [0x37, 0xfa, 0x21, 0x3d]

  lemma {:induction false} Examples()
    ensures Encode(Frame(true, 1, None, HELLO)) == [0x81, 0x05, 0x48, 0x65, 0x6c, 0x6c, 0x6f]
    ensures Encode(Frame(true, 1, Some(EXAMPLE_KEY), HELLO))
         == [0x81, 0x85, 0x37, 0xfa, 0x21, 0x3d, 0x7f, 0x9f, 0x4d, 0x51, 0x58]
    ensures Encode(Frame(false, 1, None, [0x48, 0x65, 0x6c])) == [0x01, 0x03, 0x48, 0x65, 0x6c]
    ensures Encode(Frame(true, 9, None, HELLO)) == [0x89, 0x05, 0x48, 0x65, 0x6c, 0x6c, 0x6f]
    ensures HeaderBytes(true, 2, 256, None) == [0x82, 0x7E, 0x01, 0x00]
    ensures HeaderBytes(true, 2, 65536, None) == [0x82, 0x7F, 0x00, 0x00, 0x00, 0x00, 0x00, 0x01, 0x00, 0x00]
  {
    hide Masked;
    ExampleMasked();
  }

  lemma {:induction false} EightBits(x: byte, y: byte, key: byte)
    requires Bit(x, 0) == (Bit(y, 0) + Bit(key, 0)) % 2 && Bit(x, 1) == (Bit(y, 1) + Bit(key, 1)) % 2
    requires Bit(x, 2) == (Bit(y, 2) + Bit(key, 2)) % 2 && Bit(x, 3) == (Bit(y, 3) + Bit(key, 3)) % 2
    requires Bit(x, 4) == (Bit(y, 4) + Bit(key, 4)) % 2 && Bit(x, 5) == (Bit(y, 5) + Bit(key, 5)) % 2
    requires Bit(x, 6) == (Bit(y, 6) + Bit(key, 6)) % 2 && Bit(x, 7) == (Bit(y, 7) + Bit(key, 7)) % 2
    ensures Combined(x, y, key)
  {
    hide Bit;
  }

  lemma {:induction false} ExampleBits()
    ensures Combined(0x7f, 0x48, 0x37) && Combined(0x9f, 0x65, 0xfa) && Combined(0x4d, 0x6c, 0x21)
    ensures Combined(0x51, 0x6c, 0x3d) && Combined(0x58, 0x6f, 0x37)
  {
    hide Combined;
    EightBits(0x7f, 0x48, 0x37);
    EightBits(0x9f, 0x65, 0xfa);
    EightBits(0x4d, 0x6c, 0x21);
    EightBits(0x51, 0x6c, 0x3d);
    EightBits(0x58, 0x6f, 0x37);
  }

  lemma {:induction false} ExampleMasked()
    ensures Masked(HELLO, EXAMPLE_KEY) == [0x7f, 0x9f, 0x4d, 0x51, 0x58]
  {
    hide Masked, Combined, Bit;
    ExampleBits();
    var wire := [0x7f, 0x9f, 0x4d, 0x51, 0x58];
    assert IsMasked(wire, HELLO, EXAMPLE_KEY) by {
      forall i | 0 <= i < 5 ensures Combined(wire[i], HELLO[i], EXAMPLE_KEY[i % 4]) {
        assert i == 0 || i == 1 || i == 2 || i == 3 || i == 4;
      }
    }
    MaskedByBits(wire, HELLO, EXAMPLE_KEY);
  }
}
