/**
 What a JSON string on octets is, written out: the octet patterns of section 3 of RFC 3629 with the shortest-form and
 surrogate rules of its section 4, and the characters and escapes of section 7 of RFC 8259. The parser of
 json_string.h is related to these, not to its own helpers.
 */
module JsonStandard {
  import opened Common
  import opened JsonStrings
  import opened Numerals

  // ---------- UTF-8 ----------

  /** One character at the front of a text: its number and how many octets carry it. */
  datatype Character = Character(number: nat, size: nat)

  predicate Continues(b: byte) {
    128 <= b <= 191
  }

  /** Six more bits behind those read already. */
  function Behind(bits: nat, b: byte): nat {
    bits * 64 + b % 64
  }

  /** The bits that the patterns 0xxxxxxx, 110xxxxx 10xxxxxx and so on carry, first bits first. */
  function Carried(t: seq<byte>): (r: Option<Character>)
    ensures r.Some? ==> r.value.size <= |t|
  {
    if t == [] then None
    else if t[0] <= 127 then Some(Character(t[0], 1))
    else if 192 <= t[0] <= 223 then
      if |t| < 2 || !Continues(t[1]) then None
      else Some(Character(Behind(t[0] % 32, t[1]), 2))
    else if 224 <= t[0] <= 239 then
      if |t| < 3 || !Continues(t[1]) || !Continues(t[2]) then None
      else Some(Character(Behind(Behind(t[0] % 16, t[1]), t[2]), 3))
    else if 240 <= t[0] <= 247 then
      if |t| < 4 || !Continues(t[1]) || !Continues(t[2]) || !Continues(t[3]) then None
      else Some(Character(Behind(Behind(Behind(t[0] % 8, t[1]), t[2]), t[3]), 4))
    else None
  }

  /** How many octets a character takes at least. */
  function Shortest(number: nat): nat {
    if number < 128 then 1 else if number < 2048 then 2 else if number < 65536 then 3 else 4
  }

  function ReadUtf8(t: seq<byte>): Option<Character> {
    match Carried(t)
    case None => None
    case Some(c) =>
      if c.size != Shortest(c.number) || 55296 <= c.number <= 57343 || c.number > 1114111 then None else Some(c)
  }

  lemma {:induction false} CarriedByTwo(t: seq<byte>, high: nat, low: nat)
    requires |t| >= 2 && t[0] == 192 + high && t[1] == 128 + low && high < 32 && low < 64
    ensures Carried(t) == Some(Character(high * 64 + low, 2))
  {
  }

  lemma {:induction false} CarriedByThree(t: seq<byte>, high: nat, middle: nat, low: nat)
    requires |t| >= 3 && t[0] == 224 + high && t[1] == 128 + middle && t[2] == 128 + low
    requires high < 16 && middle < 64 && low < 64
    ensures Carried(t) == Some(Character(high * 4096 + middle * 64 + low, 3))
  {
  }

  /** The octets written for a number are the text that reads as it, and a surrogate gets none. */
  lemma {:induction false} Utf8Reads(p: nat, rest: seq<byte>)
    requires p < 65536
    ensures Utf8(p).None? <==> 55296 <= p <= 57343
    ensures Utf8(p).Some? ==> ReadUtf8(Utf8(p).value + rest) == Some(Character(p, |Utf8(p).value|))
  {
    hide Behind;
    if Utf8(p).Some? {
      var t := Utf8(p).value + rest;
      if 128 <= p < 2048 {
        CarriedByTwo(t, p / 64, p % 64);
      } else if 2048 <= p {
        CarriedByThree(t, p / 4096, p / 64 % 64, p % 64);
        ThreeParts(p);
      }
      hide Carried;
    }
  }

  lemma {:induction false} ThreeParts(p: nat)
    ensures p / 4096 * 4096 + p / 64 % 64 * 64 + p % 64 == p
  {
    assert p / 64 / 64 == p / 4096;
  }

  lemma {:induction false} TwoOctets(a: byte, b: byte, p: nat)
    requires 192 <= a <= 223 && 128 <= b <= 191 && p == Behind(a % 32, b)
    ensures a == 192 + p / 64 && b == 128 + p % 64
  {
    assert a % 32 == a - 192 && b % 64 == b - 128;
    TwoParts(a - 192, b - 128, p);
  }

  lemma {:induction false} TwoCarry(u: seq<byte>, p: nat)
    requires |u| == 2 && Carried(u) == Some(Character(p, 2))
    ensures 192 <= u[0] <= 223 && 128 <= u[1] <= 191 && p == Behind(u[0] % 32, u[1])
  {
    hide Behind;
  }

  lemma {:induction false} ThreeCarry(u: seq<byte>, p: nat)
    requires |u| == 3 && Carried(u) == Some(Character(p, 3))
    ensures 224 <= u[0] <= 239 && 128 <= u[1] <= 191 && 128 <= u[2] <= 191
    ensures p == Behind(Behind(u[0] % 16, u[1]), u[2])
  {
    hide Behind;
  }

  lemma {:induction false} TwoAlone(u: seq<byte>, p: nat)
    requires |u| == 2 && 128 <= p < 2048 && Carried(u) == Some(Character(p, 2))
    ensures Utf8(p) == Some(u)
  {
    hide Carried;
    TwoCarry(u, p);
    TwoOctets(u[0], u[1], p);
    assert u == [192 + p / 64, 128 + p % 64];
  }

  lemma {:induction false} ThreeOctets(a: byte, b: byte, c: byte, p: nat)
    requires 224 <= a <= 239 && 128 <= b <= 191 && 128 <= c <= 191 && p == Behind(Behind(a % 16, b), c)
    ensures a == 224 + p / 4096 && b == 128 + p / 64 % 64 && c == 128 + p % 64
  {
    assert a % 16 == a - 224 && b % 64 == b - 128 && c % 64 == c - 128;
    ThreeApart(a - 224, b - 128, c - 128, p);
  }

  lemma {:induction false} ThreeAlone(u: seq<byte>, p: nat)
    requires |u| == 3 && 2048 <= p < 65536 && !(55296 <= p <= 57343) && Carried(u) == Some(Character(p, 3))
    ensures Utf8(p) == Some(u)
  {
    hide Carried;
    ThreeCarry(u, p);
    ThreeOctets(u[0], u[1], u[2], p);
    assert u == [224 + p / 4096, 128 + p / 64 % 64, 128 + p % 64];
  }

  /** Reading is one to one on whole texts of characters below 65536. */
  lemma {:induction false} ReadsAlone(u: seq<byte>, p: nat)
    requires p < 65536 && ReadUtf8(u) == Some(Character(p, |u|))
    ensures Utf8(p) == Some(u)
  {
    if |u| == 2 {
      TwoAlone(u, p);
    } else if |u| == 3 {
      ThreeAlone(u, p);
    } else {
      assert |u| == 1;
      assert u == [u[0]];
    }
    hide Behind;
  }

  lemma {:induction false} TwoParts(a: nat, b: nat, p: nat)
    requires b < 64 && p == a * 64 + b
    ensures p / 64 == a && p % 64 == b
  {
  }

  lemma {:induction false} ThreeApart(a: nat, b: nat, c: nat, p: nat)
    requires b < 64 && c < 64 && p == a * 4096 + b * 64 + c
    ensures p / 4096 == a && p / 64 % 64 == b && p % 64 == c
  {
    TwoParts(a * 64 + b, c, p);
    TwoParts(a, b, a * 64 + b);
  }

  // ---------- characters and escapes ----------

  const LOWER_HEX: string := "0123456789abcdef"
  const UPPER_HEX: string := "0123456789ABCDEF"

  /** The octet is the hexadecimal digit of the value, in either case. */
  predicate IsHex(c: byte, v: nat) {
    v < 16 && (c == LOWER_HEX[v] as int || c == UPPER_HEX[v] as int)
  }

  const ESCAPES: string := "\"\\/bfnrt"
  const ESCAPED: seq<byte> := [34, 92, 47, 8, 12, 10, 13, 9]

  /** `piece` writes one character whose octets in the string are `octets`. */
  ghost predicate Writes(piece: seq<byte>, octets: seq<byte>) {
    || (|piece| == 1 && piece[0] >= 32 && piece[0] != 34 && piece[0] != 92 && octets == piece)
    || (|piece| == 2 && piece[0] == 92
        && exists k :: 0 <= k < 8 && piece[1] == ESCAPES[k] as int && octets == [ESCAPED[k]])
    || (|piece| == 6 && piece[0] == 92 && piece[1] == 117
        && exists a: nat, b: nat, c: nat, d: nat ::
          && IsHex(piece[2], a) && IsHex(piece[3], b) && IsHex(piece[4], c) && IsHex(piece[5], d)
          && ReadUtf8(octets) == Some(Character(a * 4096 + b * 256 + c * 16 + d, |octets|)))
  }

  lemma {:induction false} HexExactly(c: byte, v: nat)
    ensures IsHex(c, v) <==> HexDigit(c) == v
  {
    if v < 16 {
      assert LOWER_HEX[v] as int == if v < 10 then 48 + v else 87 + v;
      assert UPPER_HEX[v] as int == if v < 10 then 48 + v else 55 + v;
    }
  }

  lemma {:induction false} EscapeTable(k: nat)
    requires k < 8
    ensures ESCAPES[k] as int < 256 && ESCAPES[k] as int != 117 && Unescape(ESCAPES[k] as int) == Some(ESCAPED[k])
  {
  }

  lemma {:induction false} EscapeListed(c: byte) returns (k: nat)
    requires Unescape(c).Some?
    ensures k < 8 && c == ESCAPES[k] as int && Unescape(c) == Some(ESCAPED[k]) && c != 117
  {
    k := match c
         case 34 => 0
         case 92 => 1
         case 47 => 2
         case 98 => 3
         case 102 => 4
         case 110 => 5
         case 114 => 6
         case _ => 7;
    EscapeTable(k);
  }

  /** The parser takes exactly one writing of a character from the front of a text. */
  lemma {:induction false} FrontWrites(t: seq<byte>)
    requires t != [] && t[0] != 34 && Front(t).Some?
    ensures var p := Front(t).value; Writes(t[..p.size], p.octets)
  {
    hide Utf8, ReadUtf8, HexDigit, Unescape, IsHex;
    var p := Front(t).value;
    var piece := t[..p.size];
    if p.size == 2 {
      var k := EscapeListed(t[1]);
      assert piece[1] == ESCAPES[k] as int;
    } else if p.size == 6 {
      var a, b, c, d := HexDigit(t[2]), HexDigit(t[3]), HexDigit(t[4]), HexDigit(t[5]);
      HexExactly(t[2], a);
      HexExactly(t[3], b);
      HexExactly(t[4], c);
      HexExactly(t[5], d);
      Utf8Reads(CodePoint(a, b, c, d), []);
      assert p.octets + [] == p.octets;
      assert CodePoint(a, b, c, d) == a * 4096 + b * 256 + c * 16 + d;
      assert IsHex(piece[2], a) && IsHex(piece[3], b) && IsHex(piece[4], c) && IsHex(piece[5], d);
    }
  }

  lemma {:induction false} WritesIsFront(piece: seq<byte>, octets: seq<byte>, rest: seq<byte>)
    requires Writes(piece, octets)
    ensures var t := piece + rest; t[0] != 34 && Front(t) == Some(Piece(octets, |piece|)) && t[|piece|..] == rest
  {
    hide Utf8, ReadUtf8, HexDigit, Unescape, IsHex;
    var t := piece + rest;
    if |piece| == 2 {
      var k :| 0 <= k < 8 && piece[1] == ESCAPES[k] as int && octets == [ESCAPED[k]];
      EscapeTable(k);
    } else if |piece| == 6 {
      var a: nat, b: nat, c: nat, d: nat :|
        && IsHex(piece[2], a) && IsHex(piece[3], b) && IsHex(piece[4], c) && IsHex(piece[5], d)
        && ReadUtf8(octets) == Some(Character(a * 4096 + b * 256 + c * 16 + d, |octets|));
      HexExactly(piece[2], a);
      HexExactly(piece[3], b);
      HexExactly(piece[4], c);
      HexExactly(piece[5], d);
      assert t[2] == piece[2] && t[3] == piece[3] && t[4] == piece[4] && t[5] == piece[5];
      assert CodePoint(a, b, c, d) == a * 4096 + b * 256 + c * 16 + d;
      ReadsAlone(octets, CodePoint(a, b, c, d));
    } else {
      assert octets == [t[0]];
    }
  }

  // ---------- strings ----------

  /** Character by character, `pieces` writes what `parts` holds. */
  ghost predicate Spells(pieces: seq<seq<byte>>, parts: seq<seq<byte>>) {
    |pieces| == |parts| && forall i :: 0 <= i < |pieces| ==> Writes(pieces[i], parts[i])
  }

  /** The text behind an opening quote is written characters of the string, the closing quote and anything. */
  ghost predicate IsBody(t: seq<byte>, text: seq<byte>) {
    exists pieces: seq<seq<byte>>, parts: seq<seq<byte>>, suffix: seq<byte> ::
      Spells(pieces, parts) && t == Joined(pieces) + [34] + suffix && text == Joined(parts)
  }

  lemma {:induction false} SpelledParses(pieces: seq<seq<byte>>, parts: seq<seq<byte>>, suffix: seq<byte>)
    requires Spells(pieces, parts)
    ensures ParseBody(Joined(pieces) + [34] + suffix) == Some(Joined(parts))
    decreases |pieces|
  {
    hide Writes, Front;
    if pieces != [] {
      var rest := Joined(pieces[1..]) + [34] + suffix;
      assert Joined(pieces) + [34] + suffix == pieces[0] + rest;
      WritesIsFront(pieces[0], parts[0], rest);
      SpelledParses(pieces[1..], parts[1..], suffix);
    }
  }

  lemma {:induction false} ParsedIsSpelled(t: seq<byte>)
      returns (pieces: seq<seq<byte>>, parts: seq<seq<byte>>, suffix: seq<byte>)
    requires ParseBody(t).Some?
    ensures Spells(pieces, parts) && t == Joined(pieces) + [34] + suffix && ParseBody(t) == Some(Joined(parts))
    decreases |t|
  {
    hide Writes, Front;
    if t[0] == 34 {
      pieces, parts, suffix := [], [], t[1..];
    } else {
      FrontWrites(t);
      var p := Front(t).value;
      var more, others, behind := ParsedIsSpelled(t[p.size..]);
      pieces, parts, suffix := [t[..p.size]] + more, [p.octets] + others, behind;
      assert pieces[1..] == more && parts[1..] == others;
      assert t == t[..p.size] + t[p.size..];
    }
  }

  /** The parser accepts exactly the JSON strings and returns their octets. */
  lemma {:induction false} ParsesExactly(json: seq<byte>, quote: nat, text: seq<byte>)
    ensures ParseString(json, quote) == Some(text)
       <==> (quote < |json| && json[quote] == 34 && IsBody(json[quote + 1..], text))
  {
    hide ParseBody;
    if quote < |json| && json[quote] == 34 {
      var t := json[quote + 1..];
      if ParseBody(t).Some? {
        var pieces, parts, suffix := ParsedIsSpelled(t);
      }
      if IsBody(t, text) {
        var pieces: seq<seq<byte>>, parts: seq<seq<byte>>, suffix: seq<byte> :|
          Spells(pieces, parts) && t == Joined(pieces) + [34] + suffix && text == Joined(parts);
        SpelledParses(pieces, parts, suffix);
      }
    }
  }

  /** What is written for an octet: itself, a short escape, or \u00 and two lower-case digits. */
  lemma {:induction false} OctetIsWritten(b: byte)
    ensures b >= 32 && b != 34 && b != 92 ==> EscapeOctet(b) == [b]
    ensures EscapeOctet(34) == [92, 34] && EscapeOctet(92) == [92, 92]
    ensures EscapeOctet(8) == Ascii("\\b") && EscapeOctet(12) == Ascii("\\f") && EscapeOctet(10) == Ascii("\\n")
    ensures EscapeOctet(13) == Ascii("\\r") && EscapeOctet(9) == Ascii("\\t")
    ensures b < 32 && b !in {8, 9, 10, 12, 13} ==>
      EscapeOctet(b) == [92, 117, 48, 48, LOWER_HEX[b / 16] as int, LOWER_HEX[b % 16] as int]
  {
    LowerHex(b / 16);
    LowerHex(b % 16);
  }

  lemma {:induction false} LowerHex(v: nat)
    requires v < 16
    ensures LOWER_HEX[v] as int == HexLetter(v)
  {
  }

  // ---------- the value of a key ----------

  predicate Blank(b: byte) {
    b in {9, 10, 11, 12, 13, 32}
  }

  /** White space, as isspace has it, and then something else or nothing. */
  predicate BlanksThen(blanks: seq<byte>, rest: seq<byte>) {
    (forall i :: 0 <= i < |blanks| ==> Blank(blanks[i])) && (rest != [] ==> !Blank(rest[0]))
  }

  lemma {:induction false} SkipsBlanks(t: seq<byte>, from: nat, blanks: seq<byte>, rest: seq<byte>)
    requires from <= |t| && t[from..] == blanks + rest && BlanksThen(blanks, rest)
    ensures SkipSpaces(t, from) == from + |blanks|
    decreases |blanks|
  {
    if blanks != [] {
      assert t[from] == blanks[0];
      assert t[from + 1..] == t[from..][1..] == blanks[1..] + rest;
      SkipsBlanks(t, from + 1, blanks[1..], rest);
    } else if rest != [] {
      assert t[from] == rest[0];
    }
  }

  /** The search finds the first place where the needle stands. */
  lemma {:induction false} FindsAt(t: seq<byte>, needle: seq<byte>, from: nat, at: nat)
    requires from <= at && StandsAt(t, needle, at) && forall k: nat :: from <= k < at ==> !StandsAt(t, needle, k)
    ensures Find(t, needle, from) == Some(at)
  {
    hide StandsAt;
    var r := Find(t, needle, from);
    assert r.None? ==> !StandsAt(t, needle, at);
    assert r.Some? && at < r.value ==> !StandsAt(t, needle, at);
  }

  /**
   The value of a key is what follows the first colon behind the first place where the quoted key stands, white space
   aside.
   */
  lemma {:induction false} FindsValue(front: seq<byte>, key: seq<byte>, middle: seq<byte>, blanks: seq<byte>,
                                      rest: seq<byte>)
    requires var t := front + ([34] + key + [34]) + middle + [58] + blanks + rest;
      forall k: nat :: k < |front| ==> !StandsAt(t, [34] + key + [34], k)
    requires 58 !in middle && BlanksThen(blanks, rest)
    ensures var t := front + ([34] + key + [34]) + middle + [58] + blanks + rest;
      && ValueAt(t, key, 0) == Some(|t| - |rest|)
      && FindString(t, key, 0) == if rest != [] && rest[0] == 34 then ParseBody(rest[1..]) else None
  {
    hide Find, ParseBody, StandsAt, SkipSpaces, BlanksThen;
    var needle := [34] + key + [34];
    var t := front + needle + middle + [58] + blanks + rest;
    var colon := |front| + |needle| + |middle|;
    PartsStand(front, needle, middle, [58], blanks + rest);
    assert t == front + needle + middle + [58] + (blanks + rest);
    FindsAt(t, needle, 0, |front|);
    FindsAt(t, COLON, |front| + |needle|, colon);
    assert t[colon + 1..] == blanks + rest;
    SkipsBlanks(t, colon + 1, blanks, rest);
    EndsWith(front + needle + middle + [58] + blanks, rest);
  }

  lemma {:induction false} EndsWith(front: seq<byte>, rest: seq<byte>)
    ensures var t := front + rest; var at := |t| - |rest|;
      rest != [] ==> t[at] == rest[0] && t[at + 1..] == rest[1..]
  {
  }

  lemma {:induction false} PartsStand(front: seq<byte>, needle: seq<byte>, middle: seq<byte>, stop: seq<byte>,
                                      rest: seq<byte>)
    requires |stop| == 1 && stop[0] !in middle
    ensures var t := front + needle + middle + stop + rest; var from := |front| + |needle|;
      && StandsAt(t, needle, |front|) && StandsAt(t, stop, from + |middle|)
      && forall k: nat :: from <= k < from + |middle| ==> !StandsAt(t, stop, k)
  {
    var t, from := front + needle + middle + stop + rest, |front| + |needle|;
    assert t[|front|..from] == needle && t[from + |middle|..from + |middle| + 1] == stop;
    forall k: nat | from <= k < from + |middle| ensures !StandsAt(t, stop, k) {
      assert t[k] == middle[k - from];
      assert k + 1 <= |t| ==> t[k..k + 1][0] == t[k];
    }
  }

  /** An integer there is read when it fits 31 bits, digit by digit up to the first other character. */
  lemma {:induction false} FindsInteger(front: seq<byte>, key: seq<byte>, middle: seq<byte>, blanks: seq<byte>,
                                        number: nat, rest: seq<byte>)
    requires var t := front + ([34] + key + [34]) + middle + [58] + blanks + (Decimals(number) + rest);
      forall k: nat :: k < |front| ==> !StandsAt(t, [34] + key + [34], k)
    requires 58 !in middle && BlanksThen(blanks, Decimals(number)) && (rest != [] ==> !(48 <= rest[0] <= 57))
    ensures var t := front + ([34] + key + [34]) + middle + [58] + blanks + (Decimals(number) + rest);
      FindInteger(t, key) == if number <= 2147483647 then Some(number) else None
  {
    hide ValueAt, StandsAt, BlanksThen, Decimals, Decimal;
    var digits := Decimals(number);
    var t := front + ([34] + key + [34]) + middle + [58] + blanks + (digits + rest);
    BlanksBefore(blanks, digits, rest);
    FindsValue(front, key, middle, blanks, digits + rest);
    var at := |t| - |digits + rest|;
    assert t[at..] == digits + rest;
    DigitsStop(t, at, digits, rest);
    assert t[at..at + |digits|] == t[at..][..|digits|] == digits;
    DecimalOfDecimals(number);
  }

  lemma {:induction false} BlanksBefore(blanks: seq<byte>, digits: seq<byte>, rest: seq<byte>)
    requires BlanksThen(blanks, digits) && digits != []
    ensures BlanksThen(blanks, digits + rest)
  {
  }

  lemma {:induction false} DigitsStop(t: seq<byte>, at: nat, digits: seq<byte>, rest: seq<byte>)
    requires at <= |t| && t[at..] == digits + rest && AllDigits(digits) && (rest != [] ==> !IsDigit(rest[0]))
    ensures DigitsEnd(t, at) == at + |digits|
    decreases |digits|
  {
    if digits != [] {
      assert t[at] == digits[0];
      assert t[at + 1..] == t[at..][1..] == digits[1..] + rest;
      DigitsStop(t, at + 1, digits[1..], rest);
    } else if rest != [] {
      assert t[at] == rest[0];
    }
  }
}
