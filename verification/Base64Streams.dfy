/**
 The resumable Base64 encoder and decoder of libb64 (cencode.c, cdecode.c): each call continues where the
 last one stopped, one character at a time, and writes through a pointer into the caller's buffer.
 A char is signed, as the decoder's tests for negative values need.
 */
module Base64Streams {
  import opened ByteBuffers
  import opened Common
  import B = Base64

  const CHARS_PER_LINE: nat := 72
  const NEWLINE: byte := 10

  // ---------- encoding ----------

  datatype Step = A | B | C

  /** base64_encodestate: where the coroutine stopped, the bits it has over, and the groups on the line. */
  datatype Encoder = Encoder(step: Step, result: nat, stepCount: nat)

  const START: Encoder := Encoder(A, 0, 0)

  predicate EncoderOk(e: Encoder) {
    && e.result < 64 && e.stepCount < CHARS_PER_LINE / 4
    && (e.step == B ==> e.result % 16 == 0 && e.result <= 48)
    && (e.step == C ==> e.result % 4 == 0 && e.result <= 60)
  }

  function LineEnd(groups: nat): seq<byte> {
    if groups + 1 == CHARS_PER_LINE / 4 then [NEWLINE] else []
  }

  function PutA(e: Encoder, b: byte): (r: (Encoder, seq<byte>))
    requires EncoderOk(e)
    ensures EncoderOk(r.0)
  {
    (e.(step := B, result := b % 4 * 16), [B.Letter(b / 4)])
  }

  function PutB(e: Encoder, b: byte): (r: (Encoder, seq<byte>))
    requires EncoderOk(e) && e.step == B
    ensures EncoderOk(r.0)
  {
    (e.(step := C, result := b % 16 * 4), [B.Letter(e.result + b / 16)])
  }

  function PutC(e: Encoder, b: byte): (r: (Encoder, seq<byte>))
    requires EncoderOk(e) && e.step == C
    ensures EncoderOk(r.0)
  {
    (Encoder(A, b % 64, (e.stepCount + 1) % (CHARS_PER_LINE / 4)),
     [B.Letter(e.result + b / 64), B.Letter(b % 64)] + LineEnd(e.stepCount))
  }

  /** One octet into the encoder: its next state and the characters it writes. */
  function Put(e: Encoder, b: byte): (r: (Encoder, seq<byte>))
    requires EncoderOk(e)
    ensures EncoderOk(r.0)
  {
    match e.step
    case A => PutA(e, b)
    case B => PutB(e, b)
    case C => PutC(e, b)
  }

  function PutAll(e: Encoder, s: seq<byte>): (r: (Encoder, seq<byte>))
    requires EncoderOk(e)
    ensures EncoderOk(r.0)
    decreases |s|
  {
    if s == [] then (e, [])
    else
      var (f, head) := Put(e, s[0]);
      var (g, tail) := PutAll(f, s[1..]);
      (g, head + tail)
  }

  /** base64_encode_blockend: what is left over, the padding, and a NUL. */
  function Finish(e: Encoder): (r: seq<byte>)
    requires EncoderOk(e)
    ensures |r| > 0
  {
    match e.step
    case A => [0]
    case B => [B.Letter(e.result), B.PAD, B.PAD, 0]
    case C => [B.Letter(e.result), B.PAD, 0]
  }

  /** Blocks one after the other do what one block over all of them does. */
  lemma {:induction false} PutAllSplits(e: Encoder, x: seq<byte>, y: seq<byte>)
    requires EncoderOk(e)
    ensures var (f, out) := PutAll(e, x); var (g, more) := PutAll(f, y);
      PutAll(e, x + y) == (g, out + more)
    decreases |x|
  {
    hide Put;
    if x == [] {
      assert x + y == y;
      assert [] + PutAll(e, y).1 == PutAll(e, y).1;
    } else {
      var (f, head) := Put(e, x[0]);
      PutAllSplits(f, x[1..], y);
      assert (x + y)[1..] == x[1..] + y;
      assert head + (PutAll(f, x[1..]).1 + PutAll(PutAll(f, x[1..]).0, y).1)
          == (head + PutAll(f, x[1..]).1) + PutAll(PutAll(f, x[1..]).0, y).1;
    }
  }

  /** Everything the encoder writes for a message, without the final NUL. */
  function Encoded(s: seq<byte>): seq<byte> {
    Remaining(START, s)
  }

  // ---------- what the encoder writes ----------

  /** The standard's encoding with a newline after every eighteenth complete group; `groups` are on the line. */
  function Wrapped(s: seq<byte>, groups: nat): seq<byte>
    requires groups < CHARS_PER_LINE / 4
    decreases |s|
  {
    if |s| < 3 then B.Encode(s)
    else
      B.Quad(s[0], s[1], s[2]) + LineEnd(groups)
      + Wrapped(s[3..], (groups + 1) % (CHARS_PER_LINE / 4))
  }

  lemma {:induction false} PutNext(e: Encoder, s: seq<byte>)
    requires EncoderOk(e) && s != []
    ensures var (f, head) := Put(e, s[0]);
      PutAll(e, s) == (PutAll(f, s[1..]).0, head + PutAll(f, s[1..]).1)
  {
  }

  /** The encoder after a whole group that began at `e`. */
  function AfterGroup(e: Encoder, last: byte): (f: Encoder)
    requires EncoderOk(e)
    ensures EncoderOk(f)
  {
    Encoder(A, last % 64, (e.stepCount + 1) % (CHARS_PER_LINE / 4))
  }

  lemma {:induction false} GroupOfThree(e: Encoder, a: byte, b: byte, c: byte)
    requires EncoderOk(e) && e.step == A
    ensures var (e1, h1) := Put(e, a); var (e2, h2) := Put(e1, b); var (e3, h3) := Put(e2, c);
      e3 == AfterGroup(e, c) && h1 + h2 + h3 == B.Quad(a, b, c) + LineEnd(e.stepCount)
  {
    hide B.Letter;
  }

  lemma {:induction false} PutThree(e: Encoder, s: seq<byte>)
    requires EncoderOk(e) && e.step == A && |s| >= 3
    ensures var (g, out) := PutAll(AfterGroup(e, s[2]), s[3..]);
      PutAll(e, s) == (g, B.Quad(s[0], s[1], s[2]) + LineEnd(e.stepCount) + out)
  {
    hide Put, PutAll, AfterGroup, B.Quad, LineEnd;
    var (e1, h1) := Put(e, s[0]);
    var (e2, h2) := Put(e1, s[1]);
    var (e3, h3) := Put(e2, s[2]);
    assert s[1..][0] == s[1] && s[1..][1..] == s[2..] && s[2..][0] == s[2] && s[2..][1..] == s[3..];
    PutNext(e, s);
    PutNext(e1, s[1..]);
    PutNext(e2, s[2..]);
    GroupOfThree(e, s[0], s[1], s[2]);
    var out := PutAll(e3, s[3..]).1;
    assert h1 + (h2 + (h3 + out)) == h1 + h2 + h3 + out;
  }

  /** What an encoder still writes for `s` and the end. */
  function Remaining(e: Encoder, s: seq<byte>): seq<byte>
    requires EncoderOk(e)
  {
    var (f, out) := PutAll(e, s);
    out + Finish(f)[..|Finish(f)| - 1]
  }

  lemma {:induction false} WrappedFrom(e: Encoder, s: seq<byte>)
    requires EncoderOk(e) && e.step == A
    ensures Remaining(e, s) == Wrapped(s, e.stepCount)
    decreases |s|
  {
    hide B.Letter, B.Quad, Put, PutAll, Finish, LineEnd;
    if |s| < 3 {
      WrappedEnd(e, s);
    } else {
      PutThree(e, s);
      var f := AfterGroup(e, s[2]);
      WrappedFrom(f, s[3..]);
      var (g, out) := PutAll(f, s[3..]);
      var end := Finish(g)[..|Finish(g)| - 1];
      var front := B.Quad(s[0], s[1], s[2]) + LineEnd(e.stepCount);
      assert front + out + end == front + (out + end);
    }
  }

  lemma {:induction false} WrappedEnd(e: Encoder, s: seq<byte>)
    requires EncoderOk(e) && e.step == A && |s| < 3
    ensures Remaining(e, s) == B.Encode(s)
  {
    hide B.Letter;
    if |s| == 0 {
    } else if |s| == 1 {
      assert s[1..] == [];
      assert PutAll(e, s) == (Put(e, s[0]).0, Put(e, s[0]).1 + []);
    } else {
      var (e1, h1) := Put(e, s[0]);
      assert s[1..][0] == s[1] && s[1..][1..] == [];
      assert PutAll(e1, s[1..]) == (Put(e1, s[1]).0, Put(e1, s[1]).1 + []);
    }
  }

  /** The encoder writes the standard's encoding, wrapped. */
  lemma {:induction false} EncodedIsWrapped(s: seq<byte>)
    ensures Encoded(s) == Wrapped(s, 0)
  {
    WrappedFrom(START, s);
  }

  lemma {:induction false} EncodeNext(s: seq<byte>)
    requires |s| >= 3
    ensures B.Encode(s) == B.Quad(s[0], s[1], s[2]) + B.Encode(s[3..])
  {
  }

  lemma {:induction false} WrappedNext(s: seq<byte>, groups: nat)
    requires groups < CHARS_PER_LINE / 4 && |s| >= 3
    ensures Wrapped(s, groups)
         == B.Quad(s[0], s[1], s[2]) + LineEnd(groups) + Wrapped(s[3..], (groups + 1) % (CHARS_PER_LINE / 4))
  {
  }

  lemma {:induction false} WrappedShort(s: seq<byte>, groups: nat)
    requires groups < CHARS_PER_LINE / 4 && |s| < 3
    ensures Wrapped(s, groups) == B.Encode(s)
  {
  }

  /** Fifty-four octets make a line of 72 characters, and less than that makes no newline. */
  lemma {:induction false} WrappedLines(s: seq<byte>, groups: nat)
    requires groups < CHARS_PER_LINE / 4
    ensures var room := 3 * (CHARS_PER_LINE / 4 - groups);
      if |s| < room then Wrapped(s, groups) == B.Encode(s)
      else
        && Wrapped(s, groups) == B.Encode(s[..room]) + [NEWLINE] + Wrapped(s[room..], 0)
        && |B.Encode(s[..room])| == CHARS_PER_LINE - 4 * groups
    decreases |s|
  {
    hide B.Quad, B.Encode, Wrapped;
    var room := 3 * (CHARS_PER_LINE / 4 - groups);
    if |s| < 3 {
      WrappedShort(s, groups);
    } else if groups + 1 == CHARS_PER_LINE / 4 {
      WrappedNext(s, groups);
      EncodeNext(s[..3]);
      EncodeEmpty();
      assert s[..3][3..] == [];
      assert B.Encode(s[..3]) == B.Quad(s[0], s[1], s[2]) + [] == B.Quad(s[0], s[1], s[2]);
    } else {
      WrappedMore(s, groups);
    }
  }

  lemma {:induction false} EncodeEmpty()
    ensures B.Encode([]) == []
  {
  }

  lemma {:induction false} Regrouped(x: seq<byte>, y: seq<byte>, z: seq<byte>, t: seq<byte>)
    ensures x + (y + z + t) == x + y + z + t
  {
  }

  lemma {:induction false} WrappedMore(s: seq<byte>, groups: nat)
    requires groups + 1 < CHARS_PER_LINE / 4 && |s| >= 3
    ensures var room := 3 * (CHARS_PER_LINE / 4 - groups);
      if |s| < room then Wrapped(s, groups) == B.Encode(s)
      else
        && Wrapped(s, groups) == B.Encode(s[..room]) + [NEWLINE] + Wrapped(s[room..], 0)
        && |B.Encode(s[..room])| == CHARS_PER_LINE - 4 * groups
    decreases |s|, 0
  {
    hide B.Quad, B.Encode, Wrapped;
    var room, quad := 3 * (CHARS_PER_LINE / 4 - groups), B.Quad(s[0], s[1], s[2]);
    WrappedLines(s[3..], groups + 1);
    WrappedNext(s, groups);
    EncodeNext(s);
    assert quad + [] == quad;
    if |s| >= room {
      var front := s[..room];
      assert s[3..][..room - 3] == front[3..] && s[3..][room - 3..] == s[room..];
      EncodeNext(front);
      Regrouped(quad, B.Encode(front[3..]), [NEWLINE], Wrapped(s[room..], 0));
    }
  }

  function Unwrapped(t: seq<byte>): seq<byte> {
    if t == [] then [] else (if t[0] == NEWLINE then [] else [t[0]]) + Unwrapped(t[1..])
  }

  lemma {:induction false} UnwrappedParts(x: seq<byte>, y: seq<byte>)
    ensures Unwrapped(x + y) == Unwrapped(x) + Unwrapped(y)
    decreases |x|
  {
    if x == [] {
      assert x + y == y;
    } else {
      UnwrappedParts(x[1..], y);
      assert (x + y)[1..] == x[1..] + y;
    }
  }

  lemma {:induction false} UnwrappedPlain(t: seq<byte>)
    requires NEWLINE !in t
    ensures Unwrapped(t) == t
  {
    if t != [] {
      UnwrappedPlain(t[1..]);
      assert t == [t[0]] + t[1..];
    }
  }

  lemma {:induction false} EncodedHasNoNewline(s: seq<byte>)
    ensures NEWLINE !in B.Encode(s)
    decreases |s|
  {
    if |s| >= 3 {
      EncodedHasNoNewline(s[3..]);
    }
  }

  /** Without the line breaks, the encoder's output is the standard's encoding. */
  lemma {:induction false} EncodedUnwraps(s: seq<byte>)
    ensures Unwrapped(Encoded(s)) == B.Encode(s)
  {
    EncodedIsWrapped(s);
    WrappedUnwraps(s, 0);
  }

  lemma {:induction false} WrappedUnwraps(s: seq<byte>, groups: nat)
    requires groups < CHARS_PER_LINE / 4
    ensures Unwrapped(Wrapped(s, groups)) == B.Encode(s)
    decreases |s|
  {
    hide B.Quad, B.Tail, B.Encode, Wrapped;
    if |s| < 3 {
      WrappedShort(s, groups);
      EncodedHasNoNewline(s);
      UnwrappedPlain(B.Encode(s));
    } else {
      var quad, rest := B.Quad(s[0], s[1], s[2]), Wrapped(s[3..], (groups + 1) % (CHARS_PER_LINE / 4));
      WrappedNext(s, groups);
      EncodeNext(s);
      WrappedUnwraps(s[3..], (groups + 1) % (CHARS_PER_LINE / 4));
      UnwrappedParts(quad + LineEnd(groups), rest);
      UnwrappedParts(quad, LineEnd(groups));
      EncodedHasNoNewline(s);
      assert NEWLINE !in quad;
      UnwrappedPlain(quad);
      assert Unwrapped(LineEnd(groups)) == [];
    }
  }

  // ---------- decoding ----------

  datatype Stage = First | Second | Third | Fourth

  /** base64_decodestate: where the coroutine stopped and the octet it has begun. */
  datatype Decoder = Decoder(step: Stage, partial: nat)

  const READY: Decoder := Decoder(First, 0)

  predicate DecoderOk(d: Decoder) {
    match d.step
    case First => d.partial == 0
    case Second => d.partial <= 252
    case Third => d.partial <= 240
    case Fourth => d.partial <= 192
  }

  /**
   base64_decode_value: the six-bit value, or a negative number. The range test lets the character after
   'z' through to the octet behind the table; `beyond` is what stands there.
   */
  function DecodeValue(c: byte, beyond: int): int {
    if c < 43 || c > 123 then -1
    else if c == 123 then beyond
    else if c == B.PAD then -2
    else B.Value(c)
  }

  /** A six-bit value into the decoder: its next state and the octet it completes, if any. */
  function TakeValue(d: Decoder, v: nat): (r: (Decoder, seq<byte>))
    requires DecoderOk(d) && v < 64
    ensures DecoderOk(r.0)
  {
    match d.step
    case First => (Decoder(Second, v * 4), [])
    case Second => (Decoder(Third, v % 16 * 16), [d.partial + v / 16])
    case Third => (Decoder(Fourth, v % 4 * 64), [d.partial + v / 4])
    case Fourth => (READY, [d.partial + v])
  }

  /** One character into the decoder; a negative value is passed over. */
  function Take(d: Decoder, c: byte, beyond: int): (r: (Decoder, seq<byte>))
    requires DecoderOk(d)
    ensures DecoderOk(r.0)
  {
    var v := DecodeValue(c, beyond);
    if v < 0 then (d, []) else TakeValue(d, v % 64)
  }

  function TakeAll(d: Decoder, t: seq<byte>, beyond: int): (r: (Decoder, seq<byte>))
    requires DecoderOk(d)
    ensures DecoderOk(r.0)
    decreases |t|
  {
    if t == [] then (d, [])
    else
      var (e, head) := Take(d, t[0], beyond);
      var (f, tail) := TakeAll(e, t[1..], beyond);
      (f, head + tail)
  }

  /** Blocks one after the other do what one block over all of them does. */
  lemma {:induction false} TakeAllSplits(d: Decoder, x: seq<byte>, y: seq<byte>, beyond: int)
    requires DecoderOk(d)
    ensures var (e, out) := TakeAll(d, x, beyond); var (f, more) := TakeAll(e, y, beyond);
      TakeAll(d, x + y, beyond) == (f, out + more)
    decreases |x|
  {
    hide Take;
    if x == [] {
      assert x + y == y;
      assert [] + TakeAll(d, y, beyond).1 == TakeAll(d, y, beyond).1;
    } else {
      var (e, head) := Take(d, x[0], beyond);
      TakeAllSplits(e, x[1..], y, beyond);
      assert (x + y)[1..] == x[1..] + y;
      var (f, out) := TakeAll(e, x[1..], beyond);
      assert head + (out + TakeAll(f, y, beyond).1) == head + out + TakeAll(f, y, beyond).1;
    }
  }

  // ---------- the round trip ----------

  lemma {:induction false} TakeFour(d: Decoder, t: seq<byte>, beyond: int)
    requires DecoderOk(d) && |t| == 4
    ensures var (d1, o1) := Take(d, t[0], beyond); var (d2, o2) := Take(d1, t[1], beyond);
      var (d3, o3) := Take(d2, t[2], beyond); var (d4, o4) := Take(d3, t[3], beyond);
      TakeAll(d, t, beyond) == (d4, o1 + o2 + o3 + o4)
  {
    hide Take;
    var (d1, o1) := Take(d, t[0], beyond);
    var (d2, o2) := Take(d1, t[1], beyond);
    var (d3, o3) := Take(d2, t[2], beyond);
    var (d4, o4) := Take(d3, t[3], beyond);
    assert t[1..][0] == t[1] && t[1..][1..] == t[2..] && t[2..][0] == t[2] && t[2..][1..] == t[3..];
    assert t[3..][0] == t[3] && t[3..][1..] == [];
    assert TakeAll(d3, t[3..], beyond) == (d4, o4 + []);
    assert TakeAll(d2, t[2..], beyond) == (d4, o3 + (o4 + []));
    assert TakeAll(d1, t[1..], beyond) == (d4, o2 + (o3 + (o4 + [])));
    assert o1 + (o2 + (o3 + (o4 + []))) == o1 + o2 + o3 + o4;
  }

  lemma {:induction false} LetterTaken(d: Decoder, v: nat, beyond: int)
    requires DecoderOk(d) && v < 64
    ensures Take(d, B.Letter(v), beyond) == TakeValue(d, v)
  {
    B.LettersAndValues(v, 0);
  }

  lemma {:induction false} SextetsTaken(v: nat, w: nat, x: nat, y: nat)
    requires v < 64 && w < 64 && x < 64 && y < 64
    ensures var (d1, o1) := TakeValue(READY, v); var (d2, o2) := TakeValue(d1, w);
      var (d3, o3) := TakeValue(d2, x); var (d4, o4) := TakeValue(d3, y);
      && o1 == [] && o2 == [v * 4 + w / 16] && o3 == [w % 16 * 16 + x / 4] && o4 == [x % 4 * 64 + y]
      && d4 == READY
  {
  }

  lemma {:induction false} QuadTaken(a: byte, b: byte, c: byte, beyond: int)
    ensures TakeAll(READY, B.Quad(a, b, c), beyond) == (READY, [a, b, c])
  {
    hide Take, TakeAll, TakeValue, B.Letter;
    B.OctetsAndSextets(a, b, c);
    var v, w, x, y := a / 4, a % 4 * 16 + b / 16, b % 16 * 4 + c / 64, c % 64;
    SextetsTaken(v, w, x, y);
    TakeFour(READY, B.Quad(a, b, c), beyond);
    LetterTaken(READY, v, beyond);
    LetterTaken(TakeValue(READY, v).0, w, beyond);
    LetterTaken(TakeValue(TakeValue(READY, v).0, w).0, x, beyond);
    LetterTaken(TakeValue(TakeValue(TakeValue(READY, v).0, w).0, x).0, y, beyond);
    assert [] + [a] + [b] + [c] == [a, b, c];
  }

  lemma {:induction false} TailTaken(s: seq<byte>, beyond: int)
    requires 0 < |s| < 3
    ensures TakeAll(READY, B.Tail(s), beyond).1 == s
  {
    hide TakeAll, TakeValue, DecodeValue, B.Letter;
    var a, b: byte := s[0], if |s| == 2 then s[1] else 0;
    B.OctetsAndSextets(a, b, 0);
    var v, w, x := a / 4, a % 4 * 16 + b / 16, b % 16 * 4;
    SextetsTaken(v, w, x, 0);
    PadSkipped(beyond);
    TakeFour(READY, B.Tail(s), beyond);
    LetterTaken(READY, v, beyond);
    LetterTaken(TakeValue(READY, v).0, w, beyond);
    LetterTaken(TakeValue(TakeValue(READY, v).0, w).0, x, beyond);
    assert [] + [a] + [] + [] == [a] && [] + [a] + [b] + [] == [a, b];
  }

  lemma {:induction false} PadSkipped(beyond: int)
    ensures DecodeValue(B.PAD, beyond) < 0 && DecodeValue(NEWLINE, beyond) < 0 && DecodeValue(0, beyond) < 0
  {
  }

  lemma {:induction false} WrappedTaken(s: seq<byte>, groups: nat, beyond: int)
    requires groups < CHARS_PER_LINE / 4
    ensures TakeAll(READY, Wrapped(s, groups), beyond).1 == s
    decreases |s|
  {
    hide B.Quad, B.Tail, B.Encode, Wrapped, Take, TakeAll;
    if |s| < 3 {
      WrappedShort(s, groups);
      ShortTaken(s, beyond);
    } else {
      var quad, line := B.Quad(s[0], s[1], s[2]), LineEnd(groups);
      var rest := Wrapped(s[3..], (groups + 1) % (CHARS_PER_LINE / 4));
      WrappedNext(s, groups);
      WrappedTaken(s[3..], (groups + 1) % (CHARS_PER_LINE / 4), beyond);
      QuadTaken(s[0], s[1], s[2], beyond);
      LineSkipped(groups, beyond);
      TakeAllSplits(READY, quad, line, beyond);
      TakeAllSplits(READY, quad + line, rest, beyond);
      assert [s[0], s[1], s[2]] + [] + s[3..] == s;
    }
  }

  lemma {:induction false} ShortTaken(s: seq<byte>, beyond: int)
    requires |s| < 3
    ensures TakeAll(READY, B.Encode(s), beyond).1 == s
  {
    hide B.Tail, Take;
    if s != [] {
      TailTaken(s, beyond);
    }
  }

  lemma {:induction false} LineSkipped(groups: nat, beyond: int)
    requires groups < CHARS_PER_LINE / 4
    ensures TakeAll(READY, LineEnd(groups), beyond) == (READY, [])
  {
    OneSkipped(READY, NEWLINE, beyond);
  }

  /** Decoding what the encoder wrote, line breaks, padding and NUL included, gives back the message. */
  lemma {:induction false} DecodeInvertsEncode(s: seq<byte>, beyond: int)
    ensures TakeAll(READY, Encoded(s) + [0], beyond).1 == s
  {
    hide Encoded, Take;
    EncodedIsWrapped(s);
    WrappedTaken(s, 0, beyond);
    TakeAllSplits(READY, Encoded(s), [0], beyond);
    OneSkipped(TakeAll(READY, Encoded(s), beyond).0, 0, beyond);
    assert s + [] == s;
  }

  lemma {:induction false} OneSkipped(d: Decoder, c: byte, beyond: int)
    requires DecoderOk(d) && DecodeValue(c, beyond) < 0
    ensures TakeAll(d, [c], beyond) == (d, []) && TakeAll(d, [], beyond) == (d, [])
  {
    assert [c][1..] == [];
    assert [] + TakeAll(d, [], beyond).1 == [];
  }
}
