/**
 What base64 text is, written out: the alphabet of section 4 of RFC 4648 as a literal, the four six-bit values of
 each 24-bit group, and '=' for the octets a last group lacks.
 */
module Base64Standard {
  import opened Common
  import opened Base64
  import S = Base64Streams

  const UPPER_A: string := "ABCDEFGHIJKLM"
  const UPPER_N: string := "NOPQRSTUVWXYZ"
  const LOWER_A: string := "abcdefghijklm"
  const LOWER_N: string := "nopqrstuvwxyz"
  const OTHERS: string := "0123456789+/"
  const ALPHABET: string := UPPER_A + UPPER_N + LOWER_A + LOWER_N + OTHERS

  /** The octet of an alphabet character. */
  function InAlphabet(v: nat): byte
    requires v < 64
  {
    ALPHABET[v] as int % 256
  }

  predicate Ranges(part: string, first: nat, n: nat) {
    |part| == n && forall k :: 0 <= k < n ==> part[k] as int == first + k
  }

  lemma {:induction false} PartsRange()
    ensures Ranges(UPPER_A, 65, 13) && Ranges(UPPER_N, 78, 13) && Ranges(LOWER_A, 97, 13) && Ranges(LOWER_N, 110, 13)
    ensures Ranges(OTHERS[..10], 48, 10) && |OTHERS| == 12 && OTHERS[10] as int == 43 && OTHERS[11] as int == 47
  {
  }

  /** Where the parts of a text cut in five lie in it. */
  lemma {:induction false} InPart(a: string, b: string, c: string, d: string, e: string, k: nat)
    requires |a| == |b| == |c| == |d| == 13 && |e| == 12 && k < 64
    ensures (a + b + c + d + e)[k]
         == if k < 13 then a[k] else if k < 26 then b[k - 13] else if k < 39 then c[k - 26]
            else if k < 52 then d[k - 39] else e[k - 52]
  {
  }

  /** The code's ranges are the alphabet. */
  lemma {:induction false} LetterOfAlphabet(v: nat)
    requires v < 64
    ensures Letter(v) == InAlphabet(v) && InAlphabet(v) != 61
  {
    PartsRange();
    LetterOfParts(UPPER_A, UPPER_N, LOWER_A, LOWER_N, OTHERS, v);
  }

  lemma {:induction false} LetterOfParts(a: string, b: string, c: string, d: string, e: string, v: nat)
    requires Ranges(a, 65, 13) && Ranges(b, 78, 13) && Ranges(c, 97, 13) && Ranges(d, 110, 13) && v < 64
    requires |e| == 12 && Ranges(e[..10], 48, 10) && e[10] as int == 43 && e[11] as int == 47
    ensures (a + b + c + d + e)[v] as int == Letter(v) && Letter(v) != 61
  {
    InPart(a, b, c, d, e, v);
    assert 52 <= v < 62 ==> e[v - 52] == e[..10][v - 52];
  }

  // ---------- encoding ----------

  /** An octet of the message, or zero behind its end. */
  function OctetAt(s: seq<byte>, i: nat): byte {
    if i < |s| then s[i] else 0
  }

  /** The i-th six-bit value of the message's 24-bit groups, first bits first. */
  function Sextet(s: seq<byte>, i: nat): (v: nat)
    ensures v < 64
  {
    var g := 3 * (i / 4);
    var word: nat := OctetAt(s, g) * 65536 + OctetAt(s, g + 1) * 256 + OctetAt(s, g + 2);
    match i % 4
    case 0 => word / 262144 % 64
    case 1 => word / 4096 % 64
    case 2 => word / 64 % 64
    case _ => word % 64
  }

  /** How many octets the last group lacks. */
  function Lacking(s: seq<byte>): nat {
    (3 - |s| % 3) % 3
  }

  lemma {:induction false} QuadByTable(a: byte, b: byte, c: byte, i: nat)
    requires i < 4
    ensures Quad(a, b, c)[i] == InAlphabet(Sextet([a, b, c], i))
  {
    hide Letter, InAlphabet;
    PackedOctets(a, b, c);
    LetterOfAlphabet(Sextet([a, b, c], i));
  }

  lemma {:induction false} TailByTable(s: seq<byte>, i: nat)
    requires 0 < |s| < 3 && i < 4
    ensures Tail(s)[i] == if i <= |s| then InAlphabet(Sextet(s, i)) else 61
  {
    hide Letter, InAlphabet, Quad;
    var b := if |s| == 2 then s[1] else 0;
    QuadByTable(s[0], b, 0, i);
  }

  /** The values of the groups behind the first are those of the rest of the message. */
  lemma {:induction false} SextetBehind(s: seq<byte>, i: nat)
    requires |s| >= 3
    ensures Sextet(s, i + 4) == Sextet(s[3..], i)
    ensures i < 4 ==> Sextet(s, i) == Sextet([s[0], s[1], s[2]], i)
  {
    assert (i + 4) / 4 == i / 4 + 1 && (i + 4) % 4 == i % 4;
    var g := 3 * (i / 4);
    assert OctetAt(s, g + 3) == OctetAt(s[3..], g) && OctetAt(s, g + 4) == OctetAt(s[3..], g + 1);
    assert OctetAt(s, g + 5) == OctetAt(s[3..], g + 2);
  }

  /** Character by character, the encoding is the alphabet at the message's six-bit values, and then '='. */
  lemma {:induction false} EncodesByTable(s: seq<byte>, i: nat)
    requires i < |Encode(s)|
    ensures |Encode(s)| == (|s| + 2) / 3 * 4
    ensures Encode(s)[i] == if i < |Encode(s)| - Lacking(s) then InAlphabet(Sextet(s, i)) else 61
    decreases |s|
  {
    hide Quad, Tail, Sextet, InAlphabet;
    if |s| < 3 {
      TailByTable(s, i);
    } else if i < 4 {
      SextetBehind(s, i);
      QuadByTable(s[0], s[1], s[2], i);
    } else {
      SextetBehind(s, i - 4);
      EncodesByTable(s[3..], i - 4);
    }
  }

  // ---------- decoding ----------

  /** The text of some six-bit values and some padding. */
  function TextOf(v: seq<nat>, pads: nat): (t: seq<byte>)
    requires forall i :: 0 <= i < |v| ==> v[i] < 64
    ensures |t| == |v| + pads
  {
    seq(|v|, i requires 0 <= i < |v| => InAlphabet(v[i])) + seq(pads, i => 61)
  }

  /** Six-bit values in groups of four, the last of which may lack one or two. */
  predicate Packs(v: seq<nat>, pads: nat) {
    (forall i :: 0 <= i < |v| ==> v[i] < 64) && pads <= 2 && (|v| + pads) % 4 == 0
  }

  function SextetAt(v: seq<nat>, i: nat): nat {
    if i < |v| then v[i] else 0
  }

  /** The i-th octet of the values' 24-bit groups, first bits first. */
  function Octet(v: seq<nat>, i: nat): byte {
    var g := 4 * (i / 3);
    var word := SextetAt(v, g) * 262144 + SextetAt(v, g + 1) * 4096 + SextetAt(v, g + 2) * 64 + SextetAt(v, g + 3);
    match i % 3
    case 0 => word / 65536 % 256
    case 1 => word / 256 % 256
    case _ => word % 256
  }

  function OctetsOfValues(v: seq<nat>, n: nat): (r: seq<byte>)
    ensures |r| == n
  {
    seq(n, i requires 0 <= i < n => Octet(v, i))
  }

  lemma {:induction false} TableReads(v: nat)
    requires v < 64
    ensures Value(InAlphabet(v)) == v && InAlphabet(v) != 61
  {
    hide InAlphabet;
    LetterOfAlphabet(v);
    LettersAndValues(v, 0);
  }

  /** Four characters of the table, or two or three and padding, are one group of the decoder. */
  lemma {:induction false} GroupByTable(v: seq<nat>, pads: nat, last: bool)
    requires Packs(v, pads) && |v| + pads == 4 && (pads > 0 ==> last)
    ensures Group(TextOf(v, pads), last) == Some(OctetsOfValues(v, 3 - pads))
  {
    hide Value, InAlphabet;
    var t := TextOf(v, pads);
    TableReads(v[0]);
    TableReads(v[1]);
    TableReads(SextetAt(v, 2));
    TableReads(SextetAt(v, 3));
    assert Value(t[0]) == v[0] && Value(t[1]) == v[1];
    assert pads < 2 ==> Value(t[2]) == v[2] && t[2] != 61;
    assert pads < 1 ==> Value(t[3]) == v[3] && t[3] != 61;
    OctetsOfGroup(v, pads);
    hide TextOf, Octet, OctetsOfValues;
  }

  lemma {:induction false} OctetsOfWord(v: seq<nat>)
    requires 2 <= |v| <= 4 && forall i :: 0 <= i < |v| ==> v[i] < 64
    ensures var x, y := SextetAt(v, 2), SextetAt(v, 3);
      Octet(v, 0) == v[0] * 4 + v[1] / 16 && Octet(v, 1) == v[1] % 16 * 16 + x / 4 && Octet(v, 2) == x % 4 * 64 + y
  {
    PackedSextets(v[0], v[1], SextetAt(v, 2), SextetAt(v, 3));
  }

  /** The octets of one group, as the decoder takes them from its values. */
  lemma {:induction false} OctetsOfGroup(v: seq<nat>, pads: nat)
    requires Packs(v, pads) && |v| + pads == 4
    ensures var x, y := SextetAt(v, 2), SextetAt(v, 3);
      OctetsOfValues(v, 3 - pads)
      == [v[0] * 4 + v[1] / 16] + (if pads == 2 then [] else [v[1] % 16 * 16 + x / 4])
         + if pads >= 1 then [] else [x % 4 * 64 + y]
  {
    hide Octet;
    OctetsOfWord(v);
  }

  lemma {:induction false} OctetBehind(v: seq<nat>, i: nat)
    requires |v| >= 4
    ensures Octet(v, i + 3) == Octet(v[4..], i)
    ensures i < 3 ==> Octet(v, i) == Octet(v[..4], i)
  {
    assert (i + 3) / 3 == i / 3 + 1 && (i + 3) % 3 == i % 3;
    var g := 4 * (i / 3);
    assert SextetAt(v, g + 4) == SextetAt(v[4..], g) && SextetAt(v, g + 5) == SextetAt(v[4..], g + 1);
    assert SextetAt(v, g + 6) == SextetAt(v[4..], g + 2) && SextetAt(v, g + 7) == SextetAt(v[4..], g + 3);
  }

  lemma {:induction false} OctetsBehind(v: seq<nat>, n: nat)
    requires |v| >= 4 && n >= 3
    ensures OctetsOfValues(v, n) == OctetsOfValues(v[..4], 3) + OctetsOfValues(v[4..], n - 3)
  {
    hide Octet;
    forall i | 0 <= i < n
      ensures OctetsOfValues(v, n)[i] == (OctetsOfValues(v[..4], 3) + OctetsOfValues(v[4..], n - 3))[i]
    {
      OctetBehind(v, if i < 3 then i else i - 3);
    }
  }

  lemma {:induction false} TextBehind(v: seq<nat>, pads: nat)
    requires Packs(v, pads) && |v| >= 4
    ensures TextOf(v, pads)[..4] == TextOf(v[..4], 0) && TextOf(v, pads)[4..] == TextOf(v[4..], pads)
  {
    hide InAlphabet;
  }

  /** Every text of six-bit values and padding decodes to the octets of those values. */
  lemma {:induction false} DecodesByTable(v: seq<nat>, pads: nat)
    requires Packs(v, pads)
    ensures Decode(TextOf(v, pads)) == Some(OctetsOfValues(v, (|v| + pads) / 4 * 3 - pads))
    decreases |v|
  {
    hide Group, InAlphabet, Octet;
    var t := TextOf(v, pads);
    if |v| + pads == 4 {
      GroupByTable(v, pads, true);
      assert t[..4] == t && t[4..] == [];
      assert DecodeGroups(t[4..]) == Some([]);
      assert OctetsOfValues(v, 3 - pads) + [] == OctetsOfValues(v, 3 - pads);
    } else if |v| >= 4 {
      TextBehind(v, pads);
      GroupByTable(v[..4], 0, false);
      DecodesByTable(v[4..], pads);
      OctetsBehind(v, (|v| + pads) / 4 * 3 - pads);
    } else {
      assert t == [];
    }
  }

  lemma {:induction false} GroupIsText(t: seq<byte>, last: bool) returns (v: seq<nat>, pads: nat)
    requires |t| == 4 && Group(t, last).Some?
    ensures Packs(v, pads) && |v| + pads == 4 && (pads > 0 ==> last) && t == TextOf(v, pads)
  {
    hide Value, InAlphabet, Letter;
    pads := if t[3] != PAD then 0 else if t[2] != PAD then 1 else 2;
    forall i | 0 <= i < 4 ensures -1 <= Value(t[i]) < 64 && (Value(t[i]) >= 0 ==> InAlphabet(Value(t[i])) == t[i]) {
      LettersAndValues(0, t[i]);
      if Value(t[i]) >= 0 {
        LetterOfAlphabet(Value(t[i]));
      }
    }
    v := seq(4 - pads, i requires 0 <= i < 4 - pads => Max(0, Value(t[i])));
    assert PAD == 61;
  }

  /** And nothing else decodes. */
  lemma {:induction false} DecodesNothingElse(t: seq<byte>)
    ensures Decode(t).Some? <==> exists v, pads :: Packs(v, pads) && t == TextOf(v, pads)
  {
    if Decode(t).Some? {
      var v, pads := IsText(t);
    } else if exists v, pads :: Packs(v, pads) && t == TextOf(v, pads) {
      var v, pads :| Packs(v, pads) && t == TextOf(v, pads);
      DecodesByTable(v, pads);
    }
  }

  lemma {:induction false} IsText(t: seq<byte>) returns (v: seq<nat>, pads: nat)
    requires Decode(t).Some?
    ensures Packs(v, pads) && t == TextOf(v, pads)
    decreases |t|
  {
    hide Group, InAlphabet;
    if t == [] {
      v, pads := [], 0;
      assert t == TextOf(v, pads);
    } else {
      var head, none := GroupIsText(t[..4], |t| == 4);
      if |t| == 4 {
        v, pads := head, none;
        assert t[..4] == t;
      } else {
        var rest, padding := IsText(t[4..]);
        v, pads := head + rest, padding;
        assert t == t[..4] + t[4..];
        assert TextOf(v, pads) == TextOf(head, 0) + TextOf(rest, padding);
      }
    }
  }

  /** The test vectors of section 10 of RFC 4648. */
  lemma {:induction false} Vectors()
    ensures Encode([]) == []
    ensures Encode([102]) == [90, 103, 61, 61]
    ensures Encode([102, 111]) == [90, 109, 56, 61]
    ensures Encode([102, 111, 111]) == [90, 109, 57, 118]
    ensures Encode([102, 111, 111, 98]) == [90, 109, 57, 118, 89, 103, 61, 61]
    ensures Encode([102, 111, 111, 98, 97]) == [90, 109, 57, 118, 89, 109, 69, 61]
    ensures Encode([102, 111, 111, 98, 97, 114]) == [90, 109, 57, 118, 89, 109, 70, 121]
  {
    assert [102, 111, 111, 98, 97, 114][3..] == [98, 97, 114];
    assert [102, 111, 111, 98, 97][3..] == [98, 97];
    assert [102, 111, 111, 98][3..] == [98];
  }

  lemma {:induction false} OneOctet()
    ensures Encode([1]) == Ascii("AQ==") && Decode(Ascii("AQ==")) == Some([1])
  {
    assert Ascii("AQ==") == [65, 81, 61, 61];
    assert Encode([1]) == [65, 81, 61, 61];
    DecodeInvertsEncode([1]);
  }

  // ---------- the resumable coder ----------

  /** A line of the resumable encoder is 72 characters for 54 octets, ended by a line feed. */
  lemma {:induction false} LinesOf54(s: seq<byte>)
    ensures |s| < 54 ==> S.Wrapped(s, 0) == Encode(s)
    ensures |s| >= 54 ==>
      |Encode(s[..54])| == 72 && S.Wrapped(s, 0) == Encode(s[..54]) + [10] + S.Wrapped(s[54..], 0)
  {
    hide Encode, S.Wrapped;
    S.WrappedLines(s, 0);
  }

  /** Its decoder takes the alphabet's characters at their place in it and passes over every other, but for '{'. */
  lemma {:induction false} StreamValues(c: byte, beyond: int)
    ensures forall v: nat :: v < 64 && c == InAlphabet(v) ==> S.DecodeValue(c, beyond) == v
    ensures S.DecodeValue(c, beyond) >= 0 && c != 123 ==> exists v: nat :: v < 64 && c == InAlphabet(v)
    ensures c == 123 ==> S.DecodeValue(c, beyond) == beyond
  {
    hide InAlphabet, Letter;
    forall v: nat | v < 64 && c == InAlphabet(v) ensures S.DecodeValue(c, beyond) == v {
      TableReads(v);
      LetterOfAlphabet(v);
      LettersAndValues(v, c);
      LetterInRange(v);
      hide Value;
    }
    if S.DecodeValue(c, beyond) >= 0 && c != 123 {
      LettersAndValues(0, c);
      LetterOfAlphabet(Value(c));
    }
  }

  lemma {:induction false} LetterInRange(v: nat)
    requires v < 64
    ensures 43 <= Letter(v) <= 122
  {
  }
}
