/** The messages of realtime_voice_protocol.h whose fields the device and the server agree on. */
module RealtimeMessages {
  import opened Common
  import opened JsonStrings
  import B = Base64

  // {"type":"in
  const APPEND_FRONT_A: seq<byte> := [123, 34, 116, 121, 112, 101, 34, 58, 34, 105, 110]
  // put_audio_bu
  const APPEND_FRONT_B: seq<byte> := [112, 117, 116, 95, 97, 117, 100, 105, 111, 95, 98, 117]
  // ffer.append",
  const APPEND_FRONT_C: seq<byte> := [102, 102, 101, 114, 46, 97, 112, 112, 101, 110, 100, 34, 44]
  // "audio":
  const APPEND_FRONT_D: seq<byte> := [34, 97, 117, 100, 105, 111, 34, 58]
  const APPEND_FRONT: seq<byte> := APPEND_FRONT_A + APPEND_FRONT_B + APPEND_FRONT_C + APPEND_FRONT_D

  // {"type":
  const TYPE_FRONT: seq<byte> :=
    [123, 34, 116, 121, 112, 101, 34, 58]

  const EVENT_ID: seq<byte> := Ascii(",\"event_id\":")
  const AUDIO_KEY: seq<byte> := [97, 117, 100, 105, 111]
  const TYPE_KEY: seq<byte> := [116, 121, 112, 101]
  const CLOSING_BRACE: seq<byte> := [125]

  function Quoted(text: seq<byte>): seq<byte> {
    [QUOTE] + text + [QUOTE]
  }

  /** buildRealtimeAudioAppend. */
  function AudioAppend(pcm: seq<byte>): seq<byte> {
    APPEND_FRONT + Quoted(B.Encode(pcm)) + CLOSING_BRACE
  }

  /** buildRealtimeControlEvent. */
  function ControlEvent(kind: seq<byte>, eventId: seq<byte>): seq<byte> {
    TYPE_FRONT + Quoted(Escape(kind)) + EVENT_ID + Quoted(Escape(eventId)) + CLOSING_BRACE
  }

  method BuildRealtimeAudioAppend(pcm: seq<byte>) returns (output: seq<byte>)
    ensures output == AudioAppend(pcm)
  {
    output := APPEND_FRONT + [QUOTE];
    var encoded := B.EncodeBase64(pcm);
    output := output + encoded;
    output := output + ([QUOTE] + CLOSING_BRACE);
    assert output == AudioAppend(pcm);
  }

  method BuildRealtimeControlEvent(kind: seq<byte>, eventId: seq<byte>) returns (output: seq<byte>)
    ensures output == ControlEvent(kind, eventId)
  {
    output := TYPE_FRONT + [QUOTE];
    var text := EscapeJsonString(kind);
    output := output + text;
    output := output + ([QUOTE] + EVENT_ID + [QUOTE]);
    text := EscapeJsonString(eventId);
    output := output + text;
    output := output + ([QUOTE] + CLOSING_BRACE);
    assert output == ControlEvent(kind, eventId);
  }

  // ---------- reading them back ----------

  /** The search stops at the first place the needle stands. */
  lemma {:induction false} FindsFirst(t: seq<byte>, needle: seq<byte>, at: nat)
    requires StandsAt(t, needle, at) && forall k: nat :: k < at ==> !StandsAt(t, needle, k)
    ensures Find(t, needle, 0) == Some(at)
  {
    var r := Find(t, needle, 0);
    assert r.None? ==> !StandsAt(t, needle, at);
  }

  /** A needle does not stand where the first two characters of the text are others. */
  lemma {:induction false} StandsNot(t: seq<byte>, needle: seq<byte>, k: nat)
    requires |needle| >= 2 && k + 1 < |t| && (t[k] != needle[0] || t[k + 1] != needle[1])
    ensures !StandsAt(t, needle, k)
  {
    var s := if k + |needle| <= |t| then t[k..k + |needle|] else needle;
    assert k + |needle| <= |t| ==> s[0] == t[k] && s[1] == t[k + 1];
  }

  /** The text in front of a value: it ends in the quoted key and a colon, and has the key nowhere before. */
  ghost predicate LeadsTo(front: seq<byte>, key: seq<byte>) {
    && key != [] && |front| >= |key| + 3
    && front[|front| - |key| - 3..] == [QUOTE] + key + [QUOTE] + COLON
    && forall k :: 0 <= k < |front| - |key| - 3 ==> front[k] != QUOTE || front[k + 1] != key[0]
  }

  /** The quoted key stands at the end of such text, with the colon behind it. */
  lemma {:induction false} KeyStands(front: seq<byte>, key: seq<byte>, rest: seq<byte>)
    requires LeadsTo(front, key)
    ensures var t, needle, at := front + rest, [QUOTE] + key + [QUOTE], |front| - |key| - 3;
      t[at..at + |needle|] == needle && t[|front| - 1..|front|] == COLON
  {
    var t, needle, at := front + rest, [QUOTE] + key + [QUOTE], |front| - |key| - 3;
    var last := front[at..];
    assert t[at..at + |needle|] == last[..|needle|] == needle;
    assert t[|front| - 1..|front|] == [last[|last| - 1]] == COLON;
  }

  lemma {:induction false} KeyStandsFirst(front: seq<byte>, key: seq<byte>, rest: seq<byte>)
    requires LeadsTo(front, key)
    ensures Find(front + rest, [QUOTE] + key + [QUOTE], 0) == Some(|front| - |key| - 3)
  {
    hide Find;
    var t, needle, at := front + rest, [QUOTE] + key + [QUOTE], |front| - |key| - 3;
    forall k: nat | k < at ensures !StandsAt(t, needle, k) {
      assert t[k] == front[k] && t[k + 1] == front[k + 1];
      StandsNot(t, needle, k);
    }
    KeyStands(front, key, rest);
    FindsFirst(t, needle, at);
  }

  /** Behind such text the search reads the string that follows. */
  lemma {:induction false} ReadsString(front: seq<byte>, key: seq<byte>, body: seq<byte>)
    requires LeadsTo(front, key)
    ensures FindString(front + [QUOTE] + body, key, 0) == ParseBody(body)
  {
    hide LeadsTo, ParseBody;
    var t, rest := front + [QUOTE] + body, [QUOTE] + body;
    assert t == front + rest;
    KeyStandsFirst(front, key, rest);
    KeyStands(front, key, rest);
    assert LeadsTo(front, key) ==> |front| >= |key| + 3 by {
      LongEnough(front, key);
    }
    assert t[|front|] == QUOTE;
    assert SkipSpaces(t, |front|) == |front|;
    assert t[|front| + 1..] == body;
  }

  lemma {:induction false} LongEnough(front: seq<byte>, key: seq<byte>)
    ensures LeadsTo(front, key) ==> |front| >= |key| + 3
  {
  }

  lemma {:induction false} EncodedIsPlain(s: seq<byte>)
    ensures forall i :: 0 <= i < |B.Encode(s)| ==>
      var c := B.Encode(s)[i]; c >= 0x20 && c != QUOTE && c != BACKSLASH
    decreases |s|
  {
    if |s| >= 3 {
      EncodedIsPlain(s[3..]);
    }
  }

  /** The audio of an append message is the sound that was put in. */
  lemma {:induction false} AudioRoundTrip(pcm: seq<byte>)
    ensures FindString(AudioAppend(pcm), AUDIO_KEY, 0) == Some(B.Encode(pcm))
    ensures B.Decode(FindString(AudioAppend(pcm), AUDIO_KEY, 0).value) == Some(pcm)
  {
    hide B.Encode, B.Decode, LeadsTo, FindString, ParseBody;
    var text := B.Encode(pcm);
    AppendLeads();
    var body := text + [QUOTE] + CLOSING_BRACE;
    assert AudioAppend(pcm) == APPEND_FRONT + [QUOTE] + body;
    ReadsString(APPEND_FRONT, AUDIO_KEY, body);
    EncodedIsPlain(pcm);
    PlainEscapes(text);
    ParseInvertsEscape(text, CLOSING_BRACE);
    B.DecodeInvertsEncode(pcm);
  }

  /** No quote of the text is followed by the first letter of the key, in it or right behind it. */
  ghost predicate WithoutKey(text: seq<byte>, first: byte) {
    && text != [] && text[|text| - 1] != QUOTE
    && forall k :: 0 <= k < |text| - 1 ==> text[k] != QUOTE || text[k + 1] != first
  }

  lemma {:induction false} WithoutKeyAppends(x: seq<byte>, y: seq<byte>, first: byte)
    requires WithoutKey(x, first) && WithoutKey(y, first)
    ensures WithoutKey(x + y, first)
  {
  }

  lemma {:induction false} Leads(before: seq<byte>, key: seq<byte>)
    requires key != [] && WithoutKey(before, key[0])
    ensures LeadsTo(before + ([QUOTE] + key + [QUOTE] + COLON), key)
  {
    var last := [QUOTE] + key + [QUOTE] + COLON;
    assert (before + last)[|before|..] == last;
  }

  /** Before the key of an append message no quote is followed by an 'a'. */
  lemma {:induction false} AppendLeads()
    ensures LeadsTo(APPEND_FRONT, AUDIO_KEY)
  {
    hide LeadsTo;
    var first := AUDIO_KEY[0];
    PartsWithoutKey();
    WithoutKeyAppends(APPEND_FRONT_A, APPEND_FRONT_B, first);
    WithoutKeyAppends(APPEND_FRONT_A + APPEND_FRONT_B, APPEND_FRONT_C, first);
    Leads(APPEND_FRONT_A + APPEND_FRONT_B + APPEND_FRONT_C, AUDIO_KEY);
    assert APPEND_FRONT_D == [QUOTE] + AUDIO_KEY + [QUOTE] + COLON;
  }

  lemma {:induction false} PartsWithoutKey()
    ensures WithoutKey(APPEND_FRONT_A, AUDIO_KEY[0])
    ensures WithoutKey(APPEND_FRONT_B, AUDIO_KEY[0])
    ensures WithoutKey(APPEND_FRONT_C, AUDIO_KEY[0])
  {
  }

  /** The type of a control event is the one it was built with, whatever octets it has. */
  lemma {:induction false} TypeRoundTrip(kind: seq<byte>, eventId: seq<byte>)
    ensures FindString(ControlEvent(kind, eventId), TYPE_KEY, 0) == Some(kind)
  {
    hide Escape, FindString, ParseBody;
    var rest := EVENT_ID + Quoted(Escape(eventId)) + CLOSING_BRACE;
    var body := Escape(kind) + [QUOTE] + rest;
    assert ControlEvent(kind, eventId) == TYPE_FRONT + [QUOTE] + body;
    ReadsString(TYPE_FRONT, TYPE_KEY, body);
    ParseInvertsEscape(kind, rest);
  }

  // ---------- the messages, character by character ----------

  lemma {:induction false} AsciiJoins(x: string, y: string)
    ensures Ascii(x + y) == Ascii(x) + Ascii(y)
  {
  }

  lemma {:induction false} FrontText()
    ensures APPEND_FRONT_A == Ascii("{\"type\":\"in") && APPEND_FRONT_B == Ascii("put_audio_bu")
    ensures APPEND_FRONT_C == Ascii("ffer.append\",") && APPEND_FRONT_D == Ascii("\"audio\":")
  {
  }

  /** An append message is this object, its sound in base64. */
  lemma {:induction false} AppendText(pcm: seq<byte>)
    ensures AudioAppend(pcm)
         == Ascii("{\"type\":\"in" + "put_audio_bu" + "ffer.append\"," + "\"audio\":") + Ascii("\"")
            + B.Encode(pcm) + Ascii("\"}")
  {
    hide B.Encode, Ascii;
    FrontText();
    AsciiJoins("{\"type\":\"in", "put_audio_bu");
    AsciiJoins("{\"type\":\"in" + "put_audio_bu", "ffer.append\",");
    AsciiJoins("{\"type\":\"in" + "put_audio_bu" + "ffer.append\",", "\"audio\":");
    Punctuation();
    var text := B.Encode(pcm);
    assert APPEND_FRONT + ([QUOTE] + text + [QUOTE]) + CLOSING_BRACE
        == APPEND_FRONT + [QUOTE] + text + ([QUOTE] + CLOSING_BRACE);
  }

  lemma {:induction false} Punctuation()
    ensures Ascii("\"") == [QUOTE] && Ascii("\"}") == [QUOTE] + CLOSING_BRACE
    ensures Ascii("{\"type\":\"") == TYPE_FRONT + [QUOTE]
    ensures Ascii("\",\"event_id\":\"") == [QUOTE] + EVENT_ID + [QUOTE]
  {
    assert Ascii(",\"event_id\":") == EVENT_ID;
  }

  /** A control message is this object, both texts escaped. */
  lemma {:induction false} ControlText(kind: seq<byte>, eventId: seq<byte>)
    ensures ControlEvent(kind, eventId)
         == Ascii("{\"type\":\"") + Escape(kind) + Ascii("\",\"event_id\":\"") + Escape(eventId) + Ascii("\"}")
  {
    hide Escape, Ascii, EVENT_ID;
    Punctuation();
    var x, y := Escape(kind), Escape(eventId);
    assert TYPE_FRONT + ([QUOTE] + x + [QUOTE]) + EVENT_ID + ([QUOTE] + y + [QUOTE]) + CLOSING_BRACE
        == TYPE_FRONT + [QUOTE] + x + ([QUOTE] + EVENT_ID + [QUOTE]) + y + ([QUOTE] + CLOSING_BRACE);
  }
}
