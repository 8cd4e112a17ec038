/**
 Base64 in one piece (RFC 4648 section 4): encodeBase64 and the decodeBase64 of realtime_voice_protocol.h,
 and the decodeBase64 of doubao_tts_sse.h.
 */
module Base64 {
  import opened Common

  const PAD: byte := 61

  /** The character of a six-bit value. */
  function Letter(v: nat): byte
    requires v < 64
  {
    if v < 26 then 65 + v else if v < 52 then 97 + (v - 26) else if v < 62 then 48 + (v - 52)
    else if v == 62 then 43 else 47
  }

  /** The six-bit value of a character, or -1. */
  function Value(c: byte): int {
    if 65 <= c <= 90 then c - 65 else if 97 <= c <= 122 then c - 97 + 26 else if 48 <= c <= 57 then c - 48 + 52
    else if c == 43 then 62 else if c == 47 then 63 else -1
  }

  lemma {:induction false} LettersAndValues(v: nat, c: byte)
    requires v < 64
    ensures Value(Letter(v)) == v && Letter(v) != PAD
    ensures -1 <= Value(c) < 64 && (Value(c) >= 0 ==> Letter(Value(c)) == c)
  {
  }

  // ---------- encoding ----------

  /** Four characters for three octets. */
  function Quad(a: byte, b: byte, c: byte): (r: seq<byte>)
    ensures |r| == 4
  {
    [Letter(a / 4), Letter(a % 4 * 16 + b / 16), Letter(b % 16 * 4 + c / 64), Letter(c % 64)]
  }

  /** The last one or two octets, padded. */
  function Tail(s: seq<byte>): (r: seq<byte>)
    requires 0 < |s| < 3
    ensures |r| == 4
  {
    var q := Quad(s[0], if |s| == 2 then s[1] else 0, 0);
    [q[0], q[1], if |s| == 2 then q[2] else PAD, PAD]
  }

  function Encode(s: seq<byte>): (r: seq<byte>)
    ensures |r| == 4 * ((|s| + 2) / 3)
  {
    if s == [] then []
    else if |s| < 3 then Tail(s)
    else Quad(s[0], s[1], s[2]) + Encode(s[3..])
  }

  // ---------- decoding ----------

  /** One group of four characters; only the last group may be padded. */
  function Group(t: seq<byte>, last: bool): Option<seq<byte>>
    requires |t| == 4
  {
    var pad2, pad3 := t[2] == PAD, t[3] == PAD;
    if (pad2 && !pad3) || ((pad2 || pad3) && !last) then None
    else
      var a, b := Value(t[0]), Value(t[1]);
      var c, d := if pad2 then 0 else Value(t[2]), if pad3 then 0 else Value(t[3]);
      if a < 0 || b < 0 || c < 0 || d < 0 then None
      else
        Some([a * 4 + b / 16] + (if pad2 then [] else [b % 16 * 16 + c / 4]) + if pad3 then [] else [c % 4 * 64 + d])
  }

  function DecodeGroups(t: seq<byte>): Option<seq<byte>>
    requires |t| % 4 == 0
  {
    if t == [] then Some([])
    else
      match Group(t[..4], |t| == 4)
      case None => None
      case Some(head) =>
        match DecodeGroups(t[4..])
        case None => None
        case Some(rest) => Some(head + rest)
  }

  function Decode(t: seq<byte>): Option<seq<byte>> {
    if |t| % 4 != 0 then None else DecodeGroups(t)
  }

  // ---------- the round trips ----------

  /** Three octets are four six-bit values, and back. */
  lemma {:induction false} OctetsAndSextets(a: nat, b: nat, c: nat)
    requires a < 256 && b < 256 && c < 256
    ensures var v, w, x, y := a / 4, a % 4 * 16 + b / 16, b % 16 * 4 + c / 64, c % 64;
      && v < 64 && w < 64 && x < 64
      && v * 4 + w / 16 == a && w % 16 * 16 + x / 4 == b && x % 4 * 64 + y == c
  {
  }

  lemma {:induction false} SextetsAndOctets(v: nat, w: nat, x: nat, y: nat)
    requires v < 64 && w < 64 && x < 64 && y < 64
    ensures var a, b, c := v * 4 + w / 16, w % 16 * 16 + x / 4, x % 4 * 64 + y;
      && a < 256 && b < 256 && c < 256
      && a / 4 == v && a % 4 * 16 + b / 16 == w && b % 16 * 4 + c / 64 == x && c % 64 == y
      && (a % 4 * 16 == w <==> w % 16 == 0) && (b % 16 * 4 == x <==> x % 4 == 0)
  {
  }

  lemma {:induction false} QuadReads(a: byte, b: byte, c: byte, last: bool)
    ensures Group(Quad(a, b, c), last) == Some([a, b, c])
  {
    hide Letter, Value;
    OctetsAndSextets(a, b, c);
    LettersAndValues(a / 4, 0);
    LettersAndValues(a % 4 * 16 + b / 16, 0);
    LettersAndValues(b % 16 * 4 + c / 64, 0);
    LettersAndValues(c % 64, 0);
    assert Group(Quad(a, b, c), last).value == [a, b, c];
  }

  lemma {:induction false} TailReads(s: seq<byte>)
    requires 0 < |s| < 3
    ensures Group(Tail(s), true) == Some(s)
  {
    hide Letter, Value;
    var a, b: byte := s[0], if |s| == 2 then s[1] else 0;
    OctetsAndSextets(a, b, 0);
    LettersAndValues(a / 4, 0);
    LettersAndValues(a % 4 * 16 + b / 16, 0);
    LettersAndValues(b % 16 * 4, 0);
    assert Group(Tail(s), true).value == s;
  }

  /** decode(encode(s)) = s. */
  lemma {:induction false} DecodeInvertsEncode(s: seq<byte>)
    ensures Decode(Encode(s)) == Some(s)
    decreases |s|
  {
    hide Group, Quad, Tail;
    var t := Encode(s);
    if s == [] {
    } else if |s| < 3 {
      TailReads(s);
      assert t == Tail(s) && t[..4] == t && t[4..] == [];
      assert DecodeGroups(t[4..]) == Some([]) && s + [] == s;
    } else {
      assert t[..4] == Quad(s[0], s[1], s[2]) && t[4..] == Encode(s[3..]);
      QuadReads(s[0], s[1], s[2], |t| == 4);
      DecodeInvertsEncode(s[3..]);
      assert s == [s[0], s[1], s[2]] + s[3..];
    }
  }

  /** The bits of the last group that no octet takes are zero. */
  predicate UnusedBitsZero(t: seq<byte>) {
    t != [] && |t| % 4 == 0 ==>
      var n := |t|;
      if t[n - 2] == PAD then Value(t[n - 3]) % 16 == 0
      else t[n - 1] == PAD ==> Value(t[n - 2]) % 4 == 0
  }

  /** Encoding what was decoded gives back the text exactly when its unused bits were zero. */
  lemma {:induction false} ReencodeExactly(t: seq<byte>)
    requires Decode(t).Some?
    ensures Encode(Decode(t).value) == t <==> UnusedBitsZero(t)
    decreases |t|
  {
    hide Group, Quad, Tail;
    if t != [] {
      var head := Group(t[..4], |t| == 4).value;
      var rest := DecodeGroups(t[4..]).value;
      if |t| == 4 {
        assert t[..4] == t && head + [] == head;
        LastGroup(t);
      } else {
        InnerGroup(t[..4]);
        assert (head + rest)[3..] == rest;
        ReencodeExactly(t[4..]);
        assert t == t[..4] + t[4..];
        assert Encode(head + rest) == t[..4] + Encode(rest);
        var n := |t|;
        assert t[4..][n - 4 - 1] == t[n - 1] && t[4..][n - 4 - 2] == t[n - 2] && t[4..][n - 4 - 3] == t[n - 3];
        if Encode(rest) != t[4..] {
          assert (t[..4] + Encode(rest))[4..] == Encode(rest);
        }
      }
    }
  }

  lemma {:induction false} InnerGroup(t: seq<byte>)
    requires |t| == 4 && Group(t, false).Some?
    ensures var r := Group(t, false).value; |r| == 3 && Quad(r[0], r[1], r[2]) == t
  {
    hide Letter, Value;
    LettersAndValues(0, t[0]);
    LettersAndValues(0, t[1]);
    LettersAndValues(0, t[2]);
    LettersAndValues(0, t[3]);
    SextetsAndOctets(Value(t[0]), Value(t[1]), Value(t[2]), Value(t[3]));
  }

  lemma {:induction false} LastGroup(t: seq<byte>)
    requires |t| == 4 && Group(t, true).Some?
    ensures Encode(Group(t, true).value) == t <==> UnusedBitsZero(t)
  {
    if t[3] != PAD {
      InnerGroup(t);
      var r := Group(t, true).value;
      assert r[3..] == [] && Encode(r) == Quad(r[0], r[1], r[2]) + [];
    } else {
      PaddedGroup(t);
    }
  }

  lemma {:induction false} PaddedGroup(t: seq<byte>)
    requires |t| == 4 && Group(t, true).Some? && t[3] == PAD
    ensures var r := Group(t, true).value;
      0 < |r| < 3 && (Tail(r) == t <==> if t[2] == PAD then Value(t[1]) % 16 == 0 else Value(t[2]) % 4 == 0)
  {
    hide Letter, Value;
    var w, x := Value(t[1]), if t[2] == PAD then 0 else Value(t[2]);
    LettersAndValues(0, t[0]);
    LettersAndValues(0, t[1]);
    LettersAndValues(0, t[2]);
    SextetsAndOctets(Value(t[0]), w, x, 0);
    var r := Group(t, true).value;
    var q := Quad(r[0], if |r| == 2 then r[1] else 0, 0);
    LettersAndValues(w / 16 * 16, 0);
    LettersAndValues(x / 4 * 4, 0);
    assert q[0] == t[0];
    assert |r| == 1 ==> q[1] == Letter(w / 16 * 16);
    assert |r| == 2 ==> q[1] == t[1] && q[2] == Letter(x / 4 * 4);
  }

  // ---------- the code ----------

  lemma {:induction false} SextetsOf(v: nat, w: nat, x: nat, y: nat)
    requires v < 64 && w < 64 && x < 64 && y < 64
    ensures var value := v * 0x4_0000 + w * 0x1000 + x * 0x40 + y;
      value / 0x4_0000 % 64 == v && value / 0x1000 % 64 == w && value / 0x40 % 64 == x && value % 64 == y
  {
    var value := v * 0x4_0000 + w * 0x1000 + x * 0x40 + y;
    assert value / 0x4_0000 == v;
    assert value / 0x1000 == v * 64 + w;
    assert value / 0x40 == (v * 64 + w) * 64 + x;
  }

  lemma {:induction false} OctetsOf(a: nat, b: nat, c: nat)
    requires a < 256 && b < 256 && c < 256
    ensures var value := a * 0x1_0000 + b * 0x100 + c;
      value / 0x1_0000 % 256 == a && value / 0x100 % 256 == b && value % 256 == c
  {
    var value := a * 0x1_0000 + b * 0x100 + c;
    assert value / 0x1_0000 == a;
    assert value / 0x100 == a * 256 + b;
  }

  lemma {:induction false} PackedOctets(a: nat, b: nat, c: nat)
    requires a < 256 && b < 256 && c < 256
    ensures var value := a * 0x1_0000 + b * 0x100 + c;
      && value / 0x4_0000 % 64 == a / 4 && value / 0x1000 % 64 == a % 4 * 16 + b / 16
      && value / 0x40 % 64 == b % 16 * 4 + c / 64 && value % 64 == c % 64
  {
    OctetsAndSextets(a, b, c);
    SextetsOf(a / 4, a % 4 * 16 + b / 16, b % 16 * 4 + c / 64, c % 64);
    assert a * 0x1_0000 + b * 0x100 + c
        == a / 4 * 0x4_0000 + (a % 4 * 16 + b / 16) * 0x1000 + (b % 16 * 4 + c / 64) * 0x40 + c % 64;
  }

  lemma {:induction false} PackedSextets(v: nat, w: nat, x: nat, y: nat)
    requires v < 64 && w < 64 && x < 64 && y < 64
    ensures var value := v * 0x4_0000 + w * 0x1000 + x * 0x40 + y;
      && value / 0x1_0000 % 256 == v * 4 + w / 16 && value / 0x100 % 256 == w % 16 * 16 + x / 4
      && value % 256 == x % 4 * 64 + y
  {
    OctetsOf(v * 4 + w / 16, w % 16 * 16 + x / 4, x % 4 * 64 + y);
    assert v * 0x4_0000 + w * 0x1000 + x * 0x40 + y
        == (v * 4 + w / 16) * 0x1_0000 + (w % 16 * 16 + x / 4) * 0x100 + (x % 4 * 64 + y);
  }

  /** The body of the encoder's loop, for the octets from the cursor on. */
  method EncodeGroup(rest: seq<byte>) returns (group: seq<byte>)
    requires rest != []
    ensures group == if |rest| < 3 then Tail(rest) else Quad(rest[0], rest[1], rest[2])
  {
    hide Letter;
    var first: nat := rest[0];
    var second: nat := if |rest| > 1 then rest[1] else 0;
    var third: nat := if |rest| > 2 then rest[2] else 0;
    var value := first * 0x1_0000 + second * 0x100 + third;
    PackedOctets(first, second, third);
    group := [Letter(value / 0x4_0000 % 64), Letter(value / 0x1000 % 64)];
    group := group + [if |rest| > 1 then Letter(value / 0x40 % 64) else PAD];
    group := group + [if |rest| > 2 then Letter(value % 64) else PAD];
  }

  method EncodeBase64(input: seq<byte>) returns (output: seq<byte>)
    ensures output == Encode(input)
  {
    hide Quad, Tail;
    output := [];
    var cursor, size := 0, |input|;
    assert input[0..] == input;
    while cursor < size
      invariant 0 <= cursor <= size + 2
      invariant output + Encode(input[Min(cursor, size)..]) == Encode(input)
    {
      ghost var rest := input[cursor..];
      var group := EncodeGroup(input[cursor..]);
      assert |rest| >= 3 ==> rest[3..] == input[cursor + 3..];
      output := output + group;
      cursor := cursor + 3;
    }
    assert output + [] == output;
  }

  /** The body of both decoders' loops: the octets of one group, or none. */
  method DecodeGroup(t: seq<byte>, last: bool) returns (r: Option<seq<byte>>)
    requires |t| == 4
    ensures r == Group(t, last)
  {
    var thirdPadding, fourthPadding := t[2] == PAD, t[3] == PAD;
    if thirdPadding && !fourthPadding {
      return None;
    }
    if (thirdPadding || fourthPadding) && !last {
      return None;
    }
    var first, second := Value(t[0]), Value(t[1]);
    var third := if thirdPadding then 0 else Value(t[2]);
    var fourth := if fourthPadding then 0 else Value(t[3]);
    if first < 0 || second < 0 || third < 0 || fourth < 0 {
      return None;
    }
    var value := first * 0x4_0000 + second * 0x1000 + third * 0x40 + fourth;
    PackedSextets(first, second, third, fourth);
    var output: seq<byte> := [value / 0x1_0000 % 256];
    if !thirdPadding {
      output := output + [value / 0x100 % 256];
    }
    if !fourthPadding {
      output := output + [value % 256];
    }
    assert Group(t, last).value == output;
    return Some(output);
  }

  lemma {:induction false} Started(t: seq<byte>)
    requires |t| % 4 == 0
    ensures Decode(t) == Prepended([], DecodeGroups(t[0..]))
  {
    assert t[0..] == t;
    if DecodeGroups(t).Some? {
      assert [] + DecodeGroups(t).value == DecodeGroups(t).value;
    }
  }

  /** decodeBase64 of realtime_voice_protocol.h: an empty text is an empty result. */
  method DecodeRealtime(encoded: seq<byte>) returns (ok: bool, output: seq<byte>)
    ensures ok == Decode(encoded).Some?
    ensures ok ==> output == Decode(encoded).value
  {
    hide Group;
    output := [];
    if encoded == [] {
      return true, [];
    }
    if |encoded| % 4 != 0 {
      return false, [];
    }
    var cursor := 0;
    Started(encoded);
    while cursor < |encoded|
      invariant 0 <= cursor <= |encoded| && cursor % 4 == 0
      invariant Decode(encoded) == Prepended(output, DecodeGroups(encoded[cursor..]))
    {
      ghost var rest := encoded[cursor..];
      var group := DecodeGroup(encoded[cursor..cursor + 4], cursor + 4 == |encoded|);
      assert rest[..4] == encoded[cursor..cursor + 4] && rest[4..] == encoded[cursor + 4..];
      if group == None {
        return false, output;
      }
      Appended(output, group.value, DecodeGroups(rest[4..]));
      output := output + group.value;
      cursor := cursor + 4;
    }
    assert output + [] == output;
    return true, output;
  }

  /** decodeBase64 of doubao_tts_sse.h: the same on every text but the empty one, which it refuses. */
  method DecodeTts(encoded: seq<byte>) returns (r: Option<seq<byte>>)
    ensures r == if encoded == [] then None else Decode(encoded)
  {
    hide Group;
    if encoded == [] || |encoded| % 4 != 0 {
      return None;
    }
    var output: seq<byte>, cursor := [], 0;
    Started(encoded);
    while cursor < |encoded|
      invariant 0 <= cursor <= |encoded| && cursor % 4 == 0
      invariant Decode(encoded) == Prepended(output, DecodeGroups(encoded[cursor..]))
    {
      ghost var rest := encoded[cursor..];
      var group := DecodeGroup(encoded[cursor..cursor + 4], cursor + 4 == |encoded|);
      assert rest[..4] == encoded[cursor..cursor + 4] && rest[4..] == encoded[cursor + 4..];
      if group == None {
        return None;
      }
      Appended(output, group.value, DecodeGroups(rest[4..]));
      output := output + group.value;
      cursor := cursor + 4;
    }
    assert output + [] == output;
    return Some(output);
  }
}
