/**
 JSON strings on octets (json_string.h): escaping, parsing at a quote, and the first-match search for the
 value of a key.
 */
module JsonStrings {
  import opened Common
  import opened Numerals

  const QUOTE: byte := 34
  const BACKSLASH: byte := 92
  const LETTER_U: byte := 117

  // ---------- escaping ----------

  /** The lower-case hexadecimal digit of a value, as printf writes it. */
  function HexLetter(n: nat): byte
    requires n < 16
  {
    if n < 10 then 48 + n else 97 + (n - 10)
  }

  /** The character after the backslash in the short escape of an octet, if it has one. */
  function ShortEscape(b: byte): Option<byte> {
    match b
    case 34 => Some(34)
    case 92 => Some(92)
    case 8 => Some(98)
    case 12 => Some(102)
    case 10 => Some(110)
    case 13 => Some(114)
    case 9 => Some(116)
    case _ => None
  }

  function EscapeOctet(b: byte): (r: seq<byte>)
    ensures r != []
  {
    if ShortEscape(b).Some? then [BACKSLASH, ShortEscape(b).value]
    else if b < 0x20 then [BACKSLASH, LETTER_U, 48, 48, HexLetter(b / 16), HexLetter(b % 16)]
    else [b]
  }

  function Escape(s: seq<byte>): seq<byte> {
    if s == [] then [] else EscapeOctet(s[0]) + Escape(s[1..])
  }

  // ---------- parsing ----------

  function HexDigit(c: byte): (r: int)
    ensures -1 <= r < 16
  {
    if 48 <= c <= 57 then c - 48 else if 97 <= c <= 102 then c - 97 + 10
    else if 65 <= c <= 70 then c - 65 + 10 else -1
  }

  /** appendUtf8 for a code point of four hexadecimal digits; a surrogate has no encoding. */
  function Utf8(p: nat): Option<seq<byte>>
    requires p < 0x1_0000
  {
    if 0xD800 <= p <= 0xDFFF then None
    else if p <= 0x7F then Some([p])
    else if p <= 0x7FF then Some([0xC0 + p / 64, 0x80 + p % 64])
    else Some([0xE0 + p / 0x1000, 0x80 + p / 64 % 64, 0x80 + p % 64])
  }

  /** The octet of a short escape. */
  function Unescape(c: byte): Option<byte> {
    match c
    case 34 => Some(34)
    case 92 => Some(92)
    case 47 => Some(47)
    case 98 => Some(8)
    case 102 => Some(12)
    case 110 => Some(10)
    case 114 => Some(13)
    case 116 => Some(9)
    case _ => None
  }

  /** The code point of four hexadecimal digits. */
  function CodePoint(a: nat, b: nat, c: nat, d: nat): (r: nat)
    requires a < 16 && b < 16 && c < 16 && d < 16
    ensures r < 0x1_0000
  {
    ((a * 16 + b) * 16 + c) * 16 + d
  }

  datatype Piece = Piece(octets: seq<byte>, size: nat)

  /** What the character or escape at the front of `t` stands for, and how much text it is. */
  function Front(t: seq<byte>): (r: Option<Piece>)
    requires t != []
    ensures r.Some? ==> 0 < r.value.size <= |t|
  {
    if t[0] != BACKSLASH then (if t[0] < 0x20 then None else Some(Piece([t[0]], 1)))
    else if |t| < 2 then None
    else if t[1] != LETTER_U then
      (match Unescape(t[1])
       case None => None
       case Some(b) => Some(Piece([b], 2)))
    else if |t| < 6 then None
    else
      var a, b, c, d := HexDigit(t[2]), HexDigit(t[3]), HexDigit(t[4]), HexDigit(t[5]);
      if a < 0 || b < 0 || c < 0 || d < 0 then None
      else
        match Utf8(CodePoint(a, b, c, d))
        case None => None
        case Some(octets) => Some(Piece(octets, 6))
  }

  /** The string whose opening quote is just before `t`. */
  function ParseBody(t: seq<byte>): Option<seq<byte>>
    decreases |t|
  {
    if t == [] then None
    else if t[0] == QUOTE then Some([])
    else
      match Front(t)
      case None => None
      case Some(p) => Prepended(p.octets, ParseBody(t[p.size..]))
  }

  function ParseString(json: seq<byte>, quote: nat): Option<seq<byte>> {
    if quote >= |json| || json[quote] != QUOTE then None else ParseBody(json[quote + 1..])
  }

  // ---------- the round trip ----------

  lemma {:induction false} HexReads(n: nat)
    requires n < 16
    ensures HexDigit(HexLetter(n)) == n && HexDigit(48) == 0
  {
  }

  lemma {:induction false} EscapeReads(b: byte, rest: seq<byte>)
    ensures var t := EscapeOctet(b) + rest;
      t[0] != QUOTE && Front(t) == Some(Piece([b], |EscapeOctet(b)|)) && t[|EscapeOctet(b)|..] == rest
  {
    hide HexDigit, HexLetter;
    if b < 0x20 {
      HexReads(b / 16);
      HexReads(b % 16);
    }
  }

  /** Parsing inverts escaping for every string of octets, whatever follows the closing quote. */
  lemma {:induction false} ParseInvertsEscape(s: seq<byte>, suffix: seq<byte>)
    ensures ParseBody(Escape(s) + [QUOTE] + suffix) == Some(s)
    decreases |s|
  {
    hide EscapeOctet, Front;
    var t := Escape(s) + [QUOTE] + suffix;
    if s != [] {
      var rest := Escape(s[1..]) + [QUOTE] + suffix;
      assert t == EscapeOctet(s[0]) + rest;
      EscapeReads(s[0], rest);
      ParseInvertsEscape(s[1..], suffix);
      assert s == [s[0]] + s[1..];
    }
  }

  /** ... and whatever came before the opening one. */
  lemma {:induction false} StringRoundTrip(prefix: seq<byte>, s: seq<byte>, suffix: seq<byte>)
    ensures ParseString(prefix + [QUOTE] + Escape(s) + [QUOTE] + suffix, |prefix|) == Some(s)
  {
    var json := prefix + [QUOTE] + Escape(s) + [QUOTE] + suffix;
    assert json[|prefix| + 1..] == Escape(s) + [QUOTE] + suffix;
    ParseInvertsEscape(s, suffix);
  }

  /** Text of printable octets without quotes and backslashes is its own escape. */
  lemma {:induction false} PlainEscapes(s: seq<byte>)
    requires forall i :: 0 <= i < |s| ==> s[i] >= 0x20 && s[i] != QUOTE && s[i] != BACKSLASH
    ensures Escape(s) == s
    decreases |s|
  {
    if s != [] {
      PlainEscapes(s[1..]);
      assert s == [s[0]] + s[1..];
    }
  }

  // ---------- searching ----------

  predicate StandsAt(t: seq<byte>, needle: seq<byte>, at: nat) {
    at + |needle| <= |t| && t[at..at + |needle|] == needle
  }

  /** string_view::find: the first place from `from` on where the needle stands. */
  function Find(t: seq<byte>, needle: seq<byte>, from: nat): (r: Option<nat>)
    ensures r.Some? ==> from <= r.value && StandsAt(t, needle, r.value)
    ensures forall k: nat :: from <= k && (r.None? || k < r.value) ==> !StandsAt(t, needle, k)
    decreases |t| - from
  {
    if StandsAt(t, needle, from) then Some(from)
    else if from + |needle| >= |t| then None
    else Find(t, needle, from + 1)
  }

  predicate IsSpace(b: byte) {
    b == 32 || 9 <= b <= 13
  }

  function SkipSpaces(t: seq<byte>, from: nat): (r: nat)
    requires from <= |t|
    ensures from <= r <= |t|
    decreases |t| - from
  {
    if from < |t| && IsSpace(t[from]) then SkipSpaces(t, from + 1) else from
  }

  const COLON: seq<byte> := [58]

  /** Where the value of a key begins: after the first colon behind the first occurrence of the quoted key. */
  function ValueAt(json: seq<byte>, key: seq<byte>, start: nat): (r: Option<nat>)
    ensures r.Some? ==> r.value <= |json|
  {
    match Find(json, [QUOTE] + key + [QUOTE], start)
    case None => None
    case Some(at) =>
      match Find(json, COLON, at + |key| + 2)
      case None => None
      case Some(colon) => Some(SkipSpaces(json, colon + 1))
  }

  function FindString(json: seq<byte>, key: seq<byte>, start: nat): Option<seq<byte>> {
    match ValueAt(json, key, start)
    case None => None
    case Some(at) => ParseString(json, at)
  }

  const MAXIMUM_INT: nat := 2147483647

  function DigitsEnd(t: seq<byte>, from: nat): (r: nat)
    requires from <= |t|
    ensures from <= r <= |t| && AllDigits(t[from..r]) && (r < |t| ==> !IsDigit(t[r]))
    decreases |t| - from
  {
    if from < |t| && IsDigit(t[from]) then DigitsEnd(t, from + 1) else from
  }

  /** findJsonInteger: the digits of the value, when there are any and they fit an int. */
  function FindInteger(json: seq<byte>, key: seq<byte>): Option<nat> {
    match ValueAt(json, key, 0)
    case None => None
    case Some(at) =>
      var digits := json[at..DigitsEnd(json, at)];
      if digits == [] || Decimal(digits) > MAXIMUM_INT then None else Some(Decimal(digits))
  }

  // ---------- the code ----------

  /** The switch of escapeJsonString. */
  method AppendEscaped(output: seq<byte>, value: byte) returns (r: seq<byte>)
    ensures r == output + EscapeOctet(value)
  {
    match value {
      case 34 => r := output + [92, 34];
      case 92 => r := output + [92, 92];
      case 8 => r := output + [92, 98];
      case 12 => r := output + [92, 102];
      case 10 => r := output + [92, 110];
      case 13 => r := output + [92, 114];
      case 9 => r := output + [92, 116];
      case _ =>
        if value < 0x20 {
          r := output + [92, 117, 48, 48, HexLetter(value / 16), HexLetter(value % 16)];
        } else {
          r := output + [value];
        }
    }
  }

  method EscapeJsonString(input: seq<byte>) returns (output: seq<byte>)
    ensures output == Escape(input)
  {
    hide EscapeOctet;
    output := [];
    var i := 0;
    assert input[0..] == input;
    while i < |input|
      invariant 0 <= i <= |input| && output + Escape(input[i..]) == Escape(input)
    {
      assert input[i..][1..] == input[i + 1..];
      output := AppendEscaped(output, input[i]);
      i := i + 1;
    }
    assert output + [] == output;
  }

  method AppendUtf8(output: seq<byte>, p: nat) returns (ok: bool, r: seq<byte>)
    requires p < 0x1_0000
    ensures ok == Utf8(p).Some? && r == if ok then output + Utf8(p).value else output
  {
    if 0xD800 <= p <= 0xDFFF {
      return false, output;
    }
    r := output;
    if p <= 0x7F {
      r := r + [p];
    } else if p <= 0x7FF {
      r := r + [0xC0 + p / 64];
      r := r + [0x80 + p % 64];
    } else {
      r := r + [0xE0 + p / 0x1000];
      r := r + [0x80 + p / 64 % 64];
      r := r + [0x80 + p % 64];
    }
    ok := true;
  }

  /** The escape at `cursor`, which is behind its backslash; the cursor of its last character. */
  method ParseEscape(json: seq<byte>, cursor: nat, output: seq<byte>) returns (ok: bool, last: nat, r: seq<byte>)
    requires 0 < cursor < |json| && json[cursor - 1] == BACKSLASH
    ensures ok == Front(json[cursor - 1..]).Some?
    ensures ok ==> var p := Front(json[cursor - 1..]).value; last + 1 == cursor - 1 + p.size && r == output + p.octets
  {
    last, r := cursor, output;
    match json[cursor] {
      case 34 => r := r + [34];
      case 92 => r := r + [92];
      case 47 => r := r + [47];
      case 98 => r := r + [8];
      case 102 => r := r + [12];
      case 110 => r := r + [10];
      case 114 => r := r + [13];
      case 116 => r := r + [9];
      case 117 =>
        ok, last, r := ParseCodePoint(json, cursor, output);
        return;
      case _ => return false, last, r;
    }
    ok := true;
  }

  method ParseCodePoint(json: seq<byte>, cursor: nat, output: seq<byte>) returns (ok: bool, last: nat, r: seq<byte>)
    requires 0 < cursor < |json| && json[cursor - 1] == BACKSLASH && json[cursor] == LETTER_U
    ensures ok == Front(json[cursor - 1..]).Some?
    ensures ok ==> var p := Front(json[cursor - 1..]).value; last + 1 == cursor - 1 + p.size && r == output + p.octets
  {
    hide Utf8;
    ghost var t := json[cursor - 1..];
    last, r := cursor, output;
    if cursor + 4 >= |json| {
      return false, last, r;
    }
    var point, index := 0, 0;
    while index < 4
      invariant 0 <= index <= 4 && last == cursor + index
      invariant forall k :: 2 <= k < 2 + index ==> HexDigit(t[k]) >= 0
      invariant point == (match index
                          case 0 => 0
                          case 1 => HexDigit(t[2])
                          case 2 => HexDigit(t[2]) * 16 + HexDigit(t[3])
                          case 3 => (HexDigit(t[2]) * 16 + HexDigit(t[3])) * 16 + HexDigit(t[4])
                          case _ =>
                            ((HexDigit(t[2]) * 16 + HexDigit(t[3])) * 16 + HexDigit(t[4])) * 16 + HexDigit(t[5]))
    {
      last := last + 1;
      assert json[last] == t[2 + index];
      var digit := HexDigit(json[last]);
      if digit < 0 {
        return false, last, r;
      }
      point, index := point * 16 + digit, index + 1;
    }
    assert HexDigit(t[2]) >= 0 && HexDigit(t[3]) >= 0 && HexDigit(t[4]) >= 0 && HexDigit(t[5]) >= 0;
    assert point == CodePoint(HexDigit(t[2]), HexDigit(t[3]), HexDigit(t[4]), HexDigit(t[5]));
    ok, r := AppendUtf8(output, point);
  }

  method ParseJsonString(json: seq<byte>, quote: nat) returns (r: Option<seq<byte>>)
    ensures r == ParseString(json, quote)
  {
    hide Front;
    if quote >= |json| || json[quote] != QUOTE {
      return None;
    }
    var output: seq<byte>, cursor := [], quote + 1;
    PrependedNothing(ParseBody(json[cursor..]));
    while cursor < |json|
      invariant quote < cursor <= |json|
      invariant ParseString(json, quote) == Prepended(output, ParseBody(json[cursor..]))
    {
      ghost var t := json[cursor..];
      var value := json[cursor];
      if value == QUOTE {
        assert output + [] == output;
        return Some(output);
      }
      if value != BACKSLASH {
        PlainFront(t);
        if value < 0x20 {
          return None;
        }
        Appended(output, [value], ParseBody(t[1..]));
        output := output + [value];
        cursor := cursor + 1;
      } else {
        if cursor + 1 >= |json| {
          PlainFront(t);
          return None;
        }
        var ok, last, more := ParseEscape(json, cursor + 1, output);
        if !ok {
          return None;
        }
        var p := Front(t).value;
        assert t[p.size..] == json[last + 1..];
        Appended(output, p.octets, ParseBody(t[p.size..]));
        output, cursor := more, last + 1;
      }
    }
    return None;
  }

  lemma {:induction false} PrependedNothing(r: Option<seq<byte>>)
    ensures Prepended([], r) == r
  {
    if r.Some? {
      assert [] + r.value == r.value;
    }
  }

  lemma {:induction false} PlainFront(t: seq<byte>)
    requires t != []
    ensures t[0] != BACKSLASH ==> Front(t) == if t[0] < 0x20 then None else Some(Piece([t[0]], 1))
    ensures t[0] == BACKSLASH && |t| < 2 ==> Front(t) == None
  {
  }

  /** The cursor of a key's value, skipping white space. */
  method FindValue(json: seq<byte>, key: seq<byte>, start: nat) returns (r: Option<nat>)
    ensures r == ValueAt(json, key, start)
  {
    var found := Find(json, [QUOTE] + key + [QUOTE], start);
    if found == None {
      return None;
    }
    found := Find(json, COLON, found.value + |key| + 2);
    if found == None {
      return None;
    }
    var cursor := found.value + 1;
    ghost var from := cursor;
    while cursor < |json| && IsSpace(json[cursor])
      invariant from <= cursor <= |json| && SkipSpaces(json, cursor) == SkipSpaces(json, from)
    {
      cursor := cursor + 1;
    }
    return Some(cursor);
  }

  method FindJsonString(json: seq<byte>, key: seq<byte>, start: nat) returns (r: Option<seq<byte>>)
    ensures r == FindString(json, key, start)
  {
    var cursor := FindValue(json, key, start);
    if cursor == None {
      return None;
    }
    r := ParseJsonString(json, cursor.value);
  }

  method FindJsonInteger(json: seq<byte>, key: seq<byte>) returns (r: Option<nat>)
    ensures r == FindInteger(json, key)
  {
    hide ValueAt;
    var at := FindValue(json, key, 0);
    if at == None {
      return None;
    }
    var cursor := at.value;
    if cursor == |json| || !IsDigit(json[cursor]) {
      return None;
    }
    ghost var end := DigitsEnd(json, cursor);
    ghost var digits := json[cursor..end];
    var value := 0;
    while cursor < |json| && IsDigit(json[cursor])
      invariant at.value <= cursor <= end && DigitsEnd(json, cursor) == end
      invariant value == Decimal(digits[..cursor - at.value]) <= MAXIMUM_INT
    {
      var digit := json[cursor] - 48;
      ghost var n := cursor - at.value;
      assert digits[..n + 1][..n] == digits[..n] && digits[n] == json[cursor];
      if value > (MAXIMUM_INT - digit) / 10 {
        DecimalOfPrefix(digits, n + 1);
        return None;
      }
      value := value * 10 + digit;
      cursor := cursor + 1;
    }
    assert digits[..|digits|] == digits;
    return Some(value);
  }
}
