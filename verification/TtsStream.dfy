/**
 The chunk-fed parser of the speech service's event stream (doubao_tts_sse.h). `Parser` is the value of the
 object `DoubaoTtsSseParser`; an event number is read as an unbounded integer.
 */
module TtsStream {
  import opened Common
  import opened JsonStrings
  import opened Numerals
  import B = Base64

  datatype Status = Receiving | Complete | ProviderError | ProtocolError | TooLarge

  datatype Parser = Parser(
    status: Status, providerCode: nat, eventId: Option<nat>, eventData: seq<byte>, line: seq<byte>,
    audio: seq<byte>)

  const FRESH: Parser := Parser(Receiving, 0, None, [], [], [])

  const LF: byte := 10
  const CR: byte := 13
  const SPACE: byte := 32
  const EVENT_PREFIX: seq<byte> := [101, 118, 101, 110, 116, 58]
  const DATA_PREFIX: seq<byte> := [100, 97, 116, 97, 58]
  const CODE_KEY: seq<byte> := [99, 111, 100, 101]
  const DATA_KEY: seq<byte> := [100, 97, 116, 97]

  const AUDIO_EVENT: nat := 352
  const DONE_EVENT: nat := 152
  const ERROR_EVENT: nat := 153
  const SUCCESS_CODE: nat := 20000000

  predicate IsError(p: Parser) {
    p.status == ProviderError || p.status == ProtocolError || p.status == TooLarge
  }

  function Fail(p: Parser, status: Status): Parser {
    p.(status := status, audio := [])
  }

  /** The sound an audio event carries, if it carries any. */
  function Payload(data: seq<byte>): Option<seq<byte>> {
    match FindString(data, DATA_KEY, 0)
    case None => None
    case Some(encoded) => if encoded == [] then None else B.Decode(encoded)
  }

  /** An audio event: its payload is decoded and appended, if there is room. */
  function TakeAudio(p: Parser, data: seq<byte>, maximum: nat): Parser {
    match Payload(data)
    case None => Fail(p, ProtocolError)
    case Some(decoded) =>
      if |decoded| > maximum - Min(maximum, |p.audio|) then Fail(p, TooLarge)
      else p.(audio := p.audio + decoded)
  }

  function DispatchEvent(p: Parser, maximum: nat): Parser {
    if p.eventId == None && p.eventData == [] then p
    else if p.eventId == None || p.eventData == [] then Fail(p, ProtocolError)
    else
      var q := p.(eventId := None, eventData := []);
      match FindInteger(p.eventData, CODE_KEY)
      case None => Fail(q, ProtocolError)
      case Some(code) =>
        var r := q.(providerCode := code);
        var event := p.eventId.value;
        if event == AUDIO_EVENT then (if code != 0 then Fail(r, ProviderError) else TakeAudio(r, p.eventData, maximum))
        else if event == DONE_EVENT then
          (if code != SUCCESS_CODE then Fail(r, ProviderError) else r.(status := Complete))
        else if event == ERROR_EVENT then Fail(r, ProviderError)
        else r
  }

  predicate StartsWith(line: seq<byte>, prefix: seq<byte>) {
    |prefix| <= |line| && line[..|prefix|] == prefix
  }

  function SkipBlanks(line: seq<byte>, from: nat): (r: nat)
    requires from <= |line|
    ensures from <= r <= |line|
    decreases |line| - from
  {
    if from < |line| && line[from] == SPACE then SkipBlanks(line, from + 1) else from
  }

  function ProcessLine(p: Parser, line: seq<byte>, maximum: nat): Parser {
    if line == [] then DispatchEvent(p, maximum)
    else if StartsWith(line, EVENT_PREFIX) then
      var number := line[SkipBlanks(line, 6)..];
      if number == [] || !AllDigits(number) then Fail(p, ProtocolError)
      else p.(eventId := Some(Decimal(number)))
    else if StartsWith(line, DATA_PREFIX) then
      var text := if |line| > 5 && line[5] == SPACE then line[6..] else line[5..];
      p.(eventData := if p.eventData == [] then text else p.eventData + [LF] + text)
    else p
  }

  /** A line without the carriage return it may end in. */
  function Stripped(line: seq<byte>): seq<byte> {
    if line != [] && line[|line| - 1] == CR then line[..|line| - 1] else line
  }

  /** The end of a line: it is processed, and cleared unless that failed. */
  function EndLine(p: Parser, maximum: nat): Parser {
    var q := p.(line := Stripped(p.line));
    var r := ProcessLine(q, q.line, maximum);
    if IsError(r) then r else r.(line := [])
  }

  function FeedOctet(p: Parser, b: byte, maximum: nat): Parser {
    if IsError(p) then p else if b == LF then EndLine(p, maximum) else p.(line := p.line + [b])
  }

  /** feed(); it reports whether the result is no error. */
  function Feed(p: Parser, chunk: seq<byte>, maximum: nat): Parser
    decreases |chunk|
  {
    if chunk == [] then p else Feed(FeedOctet(p, chunk[0], maximum), chunk[1..], maximum)
  }

  /** finish(); it reports whether the result is no error. */
  function Finish(p: Parser, maximum: nat): Parser {
    if IsError(p) then p
    else
      var q := if p.line == [] then p else ProcessLine(p, p.line, maximum);
      if IsError(q) then q
      else
        var r := DispatchEvent(q.(line := []), maximum);
        if IsError(r) then r else if r.status != Complete then Fail(r, ProtocolError) else r
  }

  // ---------- what a stream says, apart from how it is parsed ----------

  datatype Event = Event(id: nat, data: seq<byte>)

  /** The lines of a stream that have ended, without their endings; `current` was begun before it. */
  function Lines(stream: seq<byte>, current: seq<byte>): seq<seq<byte>>
    decreases |stream|
  {
    if stream == [] then []
    else if stream[0] == LF then [Stripped(current)] + Lines(stream[1..], [])
    else Lines(stream[1..], current + [stream[0]])
  }

  /** The events of the lines so far, the one in progress, and whether the lines make events at all. */
  datatype Reading = Reading(events: seq<Event>, id: Option<nat>, data: seq<byte>, bad: bool)

  const UNREAD: Reading := Reading([], None, [], false)

  function ReadLine(r: Reading, line: seq<byte>): Reading {
    if r.bad then r
    else if line == [] then
      if r.id == None && r.data == [] then r
      else if r.id == None || r.data == [] then r.(bad := true)
      else Reading(r.events + [Event(r.id.value, r.data)], None, [], false)
    else if StartsWith(line, EVENT_PREFIX) then
      var number := line[SkipBlanks(line, 6)..];
      if number == [] || !AllDigits(number) then r.(bad := true) else r.(id := Some(Decimal(number)))
    else if StartsWith(line, DATA_PREFIX) then
      var text := if |line| > 5 && line[5] == SPACE then line[6..] else line[5..];
      r.(data := if r.data == [] then text else r.data + [LF] + text)
    else r
  }

  function ReadLines(r: Reading, lines: seq<seq<byte>>): Reading
    decreases |lines|
  {
    if lines == [] then r else ReadLines(ReadLine(r, lines[0]), lines[1..])
  }

  /** The sound under the key "data" of an audio event, in base64. */
  function PayloadOf(data: seq<byte>): Option<seq<byte>> {
    match FindString(data, Ascii("data"), 0)
    case None => None
    case Some(encoded) => if |encoded| == 0 then None else B.Decode(encoded)
  }

  lemma {:induction false} Keys()
    ensures CODE_KEY == Ascii("code") && DATA_KEY == Ascii("data")
    ensures EVENT_PREFIX == Ascii("event:") && DATA_PREFIX == Ascii("data:")
  {
  }

  /** An event the service may send: it has a code, and what its number calls for. */
  predicate Admitted(e: Event) {
    var code := FindInteger(e.data, Ascii("code"));
    && code.Some? && e.id != 153
    && (e.id == 352 ==> code.value == 0 && PayloadOf(e.data).Some?)
    && (e.id == 152 ==> code.value == 20000000)
  }

  /** How an event that is not admitted is reported: the service's own error, or none of its protocol's messages. */
  function RefusalOf(e: Event): Status {
    match FindInteger(e.data, Ascii("code"))
    case None => ProtocolError
    case Some(code) => if e.id == 352 && code == 0 then ProtocolError else ProviderError
  }

  predicate AllAdmitted(events: seq<Event>) {
    forall i :: 0 <= i < |events| ==> Admitted(events[i])
  }

  function SoundOf(e: Event): seq<byte> {
    if e.id == 352 && PayloadOf(e.data).Some? then PayloadOf(e.data).value else []
  }

  /** The payloads of the audio events, one after the other. */
  function AudioOf(events: seq<Event>): seq<byte> {
    if events == [] then [] else AudioOf(events[..|events| - 1]) + SoundOf(events[|events| - 1])
  }

  /** What the parser must refuse. */
  predicate Refused(r: Reading, maximum: nat) {
    r.bad || !AllAdmitted(r.events) || |AudioOf(r.events)| > maximum
  }

  predicate Ended(events: seq<Event>) {
    exists i :: 0 <= i < |events| && events[i].id == 152
  }

  // ---------- theorems ----------

  /** However the stream is cut into chunks, inside a line ending or after an error, the parser is the same. */
  lemma {:induction false} FeedSplits(p: Parser, a: seq<byte>, b: seq<byte>, maximum: nat)
    ensures Feed(p, a + b, maximum) == Feed(Feed(p, a, maximum), b, maximum)
    decreases |a|
  {
    hide FeedOctet;
    if a == [] {
      assert a + b == b;
    } else {
      assert (a + b)[1..] == a[1..] + b;
      FeedSplits(FeedOctet(p, a[0], maximum), a[1..], b, maximum);
    }
  }

  /** An error stays: nothing fed later changes anything. */
  lemma {:induction false} ErrorsAbsorb(p: Parser, chunk: seq<byte>, maximum: nat)
    requires IsError(p)
    ensures Feed(p, chunk, maximum) == p && Finish(p, maximum) == p
    decreases |chunk|
  {
    if chunk != [] {
      ErrorsAbsorb(p, chunk[1..], maximum);
    }
  }

  // ---------- lines and events ----------

  /** Octets that end no line gather in the line. */
  lemma {:induction false} FeedGathers(p: Parser, s: seq<byte>, maximum: nat)
    requires !IsError(p) && LF !in s
    ensures Feed(p, s, maximum) == p.(line := p.line + s)
    decreases |s|
  {
    hide EndLine;
    if s == [] {
      assert p.line + s == p.line;
    } else {
      FeedGathers(p.(line := p.line + [s[0]]), s[1..], maximum);
      assert p.line + [s[0]] + s[1..] == p.line + s;
    }
  }

  /** A line is read whole, and one that ends in CR LF as one that ends in LF. */
  lemma {:induction false} FeedLine(p: Parser, s: seq<byte>, maximum: nat)
    requires !IsError(p) && p.line == [] && LF !in s
    ensures Feed(p, s + [LF], maximum) == EndLine(p.(line := s), maximum)
    ensures Stripped(s) == s ==> Feed(p, s + [CR, LF], maximum) == Feed(p, s + [LF], maximum)
  {
    hide EndLine;
    FeedEnd(p, s, maximum);
    if Stripped(s) == s {
      var t := s + [CR];
      FeedEnd(p, t, maximum);
      assert t + [LF] == s + [CR, LF];
      SameStripped(p, s, maximum);
    }
  }

  lemma {:induction false} SameStripped(p: Parser, s: seq<byte>, maximum: nat)
    requires Stripped(s) == s
    ensures EndLine(p.(line := s + [CR]), maximum) == EndLine(p.(line := s), maximum)
  {
    hide ProcessLine;
    assert (s + [CR])[..|s|] == s;
  }

  lemma {:induction false} FeedEnd(p: Parser, s: seq<byte>, maximum: nat)
    requires !IsError(p) && p.line == [] && LF !in s
    ensures Feed(p, s + [LF], maximum) == EndLine(p.(line := s), maximum)
  {
    hide EndLine;
    FeedGathers(p, s, maximum);
    FeedSplits(p, s, [LF], maximum);
    assert [] + s == s && [LF][1..] == [];
    assert Feed(p.(line := s), [LF], maximum) == Feed(FeedOctet(p.(line := s), LF, maximum), [], maximum);
  }

  /** An event on the wire: its number, its data on one line, and a blank line. */
  function EventText(e: Event): seq<byte> {
    Ascii("event:") + Decimals(e.id) + [10] + (Ascii("data: ") + e.data + [10]) + [10]
  }

  predicate OneLine(data: seq<byte>) {
    data != [] && LF !in data && data[|data| - 1] != CR
  }

  /** Between events. */
  predicate Settled(p: Parser) {
    !IsError(p) && p.line == [] && p.eventId == None && p.eventData == []
  }

  /** An event on the wire is dispatched once, with its number and data. */
  lemma {:induction false} FeedEvent(p: Parser, e: Event, maximum: nat)
    requires Settled(p) && OneLine(e.data)
    ensures Feed(p, EventText(e), maximum)
         == DispatchEvent(p.(eventId := Some(e.id), eventData := e.data), maximum)
  {
    hide Feed, DispatchEvent, Decimals, ProcessLine;
    Keys();
    assert Ascii("data: ") == DATA_PREFIX + [SPACE];
    var number, text := EVENT_PREFIX + Decimals(e.id), DATA_PREFIX + [SPACE] + e.data;
    NumberLine(p, e.id, maximum);
    var q := p.(eventId := Some(e.id));
    TextLine(q, e.data, maximum);
    var r := q.(eventData := e.data);
    BlankLine(r, maximum);
    FeedSplits(p, number + [LF] + (text + [LF]), [LF], maximum);
    FeedSplits(p, number + [LF], text + [LF], maximum);
    assert [] + [LF] == [LF];
  }

  lemma {:induction false} BlankLine(p: Parser, maximum: nat)
    requires !IsError(p) && p.line == []
    ensures Feed(p, [LF], maximum) == DispatchEvent(p, maximum)
  {
    FeedEnd(p, [], maximum);
    assert [] + [LF] == [LF];
    DispatchKeepsLine(p, maximum);
  }

  lemma {:induction false} DispatchKeepsLine(p: Parser, maximum: nat)
    ensures DispatchEvent(p, maximum).line == p.line
  {
  }

  lemma {:induction false} DigitsPlain(n: nat)
    ensures var s := Decimals(n); LF !in s && s[|s| - 1] != CR && s[0] != SPACE
  {
    var s := Decimals(n);
    assert forall i :: 0 <= i < |s| ==> IsDigit(s[i]);
  }

  lemma {:induction false} NumberLine(p: Parser, id: nat, maximum: nat)
    requires !IsError(p) && p.line == []
    ensures Feed(p, EVENT_PREFIX + Decimals(id) + [LF], maximum) == p.(eventId := Some(id))
  {
    hide Feed, DispatchEvent;
    var s := EVENT_PREFIX + Decimals(id);
    DigitsPlain(id);
    FeedEnd(p, s, maximum);
    assert s[6..] == Decimals(id) && s[..6] == EVENT_PREFIX;
    assert SkipBlanks(s, 6) == 6;
    DecimalOfDecimals(id);
    assert s[|s| - 1] == Decimals(id)[|Decimals(id)| - 1];
    assert Stripped(s) == s;
  }

  lemma {:induction false} TextLine(p: Parser, data: seq<byte>, maximum: nat)
    requires !IsError(p) && p.line == [] && p.eventData == [] && OneLine(data)
    ensures Feed(p, DATA_PREFIX + [SPACE] + data + [LF], maximum) == p.(eventData := data)
  {
    hide Feed, DispatchEvent;
    var s := DATA_PREFIX + [SPACE] + data;
    FeedEnd(p, s, maximum);
    assert s[6..] == data && s[..5] == DATA_PREFIX && s[5] == SPACE;
    assert s[|s| - 1] == data[|data| - 1];
    assert Stripped(s) == s;
    assert s[0] != EVENT_PREFIX[0];
    assert !StartsWith(s, EVENT_PREFIX) by {
      assert |s| >= 6 ==> s[..6][0] == s[0];
    }
  }

  // ---------- lines, written out ----------

  /** Blanks between the colon and an event's number make no difference. */
  lemma {:induction false} EventLine(p: Parser, blanks: seq<byte>, id: nat, maximum: nat)
    requires !IsError(p) && p.line == [] && forall i :: 0 <= i < |blanks| ==> blanks[i] == 32
    ensures Feed(p, Ascii("event:") + blanks + Decimals(id) + [10], maximum) == p.(eventId := Some(id))
  {
    hide Feed, DispatchEvent, Decimals, Decimal, Ascii;
    Keys();
    var number := Decimals(id);
    var s := EVENT_PREFIX + blanks + number;
    DigitsPlain(id);
    FeedEnd(p, s, maximum);
    assert s[6..] == blanks + number && s[..6] == EVENT_PREFIX;
    BlanksSkipped(s, 6, blanks, number);
    assert s[6 + |blanks|..] == number;
    DecimalOfDecimals(id);
    assert s[|s| - 1] == number[|number| - 1];
    assert Stripped(s) == s;
  }

  lemma {:induction false} BlanksSkipped(s: seq<byte>, from: nat, blanks: seq<byte>, rest: seq<byte>)
    requires from <= |s| && s[from..] == blanks + rest && forall i :: 0 <= i < |blanks| ==> blanks[i] == SPACE
    requires rest != [] && rest[0] != SPACE
    ensures SkipBlanks(s, from) == from + |blanks|
    decreases |blanks|
  {
    assert s[from] == if blanks != [] then blanks[0] else rest[0];
    if blanks != [] {
      assert s[from + 1..] == s[from..][1..] == blanks[1..] + rest;
      BlanksSkipped(s, from + 1, blanks[1..], rest);
    }
  }

  /** Data is taken from behind the colon and at most one blank; each further line follows a line feed. */
  lemma {:induction false} DataLine(p: Parser, blank: bool, data: seq<byte>, maximum: nat)
    requires !IsError(p) && p.line == [] && OneLine(data) && (blank || data[0] != 32)
    ensures Feed(p, Ascii("data:") + (if blank then [32] else []) + data + [10], maximum)
         == p.(eventData := if p.eventData == [] then data else p.eventData + [10] + data)
  {
    hide Feed, ProcessLine, DispatchEvent, Ascii;
    Keys();
    var text := (if blank then [SPACE] else []) + data;
    var s := DATA_PREFIX + text;
    assert DATA_PREFIX + (if blank then [32] else []) + data == s;
    FeedEnd(p, s, maximum);
    assert s[|s| - 1] == data[|data| - 1];
    assert Stripped(s) == s;
    DataProcessed(p.(line := s), text, maximum);
    assert blank ==> text[1..] == data;
  }

  lemma {:induction false} DataProcessed(p: Parser, text: seq<byte>, maximum: nat)
    ensures var data := if text != [] && text[0] == SPACE then text[1..] else text;
      ProcessLine(p, DATA_PREFIX + text, maximum)
      == p.(eventData := if p.eventData == [] then data else p.eventData + [10] + data)
  {
    hide DispatchEvent;
    var s := DATA_PREFIX + text;
    NoEvent(s);
    assert s[..5] == DATA_PREFIX && s[5..] == text;
    if text != [] {
      assert s[5] == text[0] && s[6..] == text[1..];
    }
  }

  lemma {:induction false} NoEvent(s: seq<byte>)
    requires s != [] && s[0] == DATA_PREFIX[0]
    ensures !StartsWith(s, EVENT_PREFIX)
  {
    assert |s| >= 6 ==> s[..6][0] == s[0];
  }

  /** Any other line says nothing. */
  lemma {:induction false} OtherLine(p: Parser, s: seq<byte>, maximum: nat)
    requires !IsError(p) && p.line == [] && OneLine(s)
    requires !StartsWith(s, Ascii("event:")) && !StartsWith(s, Ascii("data:"))
    ensures Feed(p, s + [10], maximum) == p
  {
    hide Feed, DispatchEvent, Ascii, StartsWith;
    Keys();
    FeedEnd(p, s, maximum);
    assert Stripped(s) == s;
  }

  function DispatchAll(p: Parser, events: seq<Event>, maximum: nat): Parser
    decreases |events|
  {
    if events == [] || IsError(p) then p
    else
      var e := events[0];
      DispatchAll(DispatchEvent(p.(eventId := Some(e.id), eventData := e.data), maximum), events[1..], maximum)
  }

  function StreamText(events: seq<Event>): seq<byte> {
    if events == [] then [] else EventText(events[0]) + StreamText(events[1..])
  }

  /** A stream of events is dispatched event by event, in order, up to the first error. */
  lemma {:induction false} FeedStream(p: Parser, events: seq<Event>, maximum: nat)
    requires Settled(p) && forall i :: 0 <= i < |events| ==> OneLine(events[i].data)
    ensures Feed(p, StreamText(events), maximum) == DispatchAll(p, events, maximum)
    decreases |events|
  {
    hide DispatchEvent, EventText, OneLine;
    if events != [] {
      var e, rest := events[0], StreamText(events[1..]);
      FeedSplits(p, EventText(e), rest, maximum);
      FeedEvent(p, e, maximum);
      var q := Feed(p, EventText(e), maximum);
      if IsError(q) {
        ErrorsAbsorb(q, rest, maximum);
      } else {
        DispatchSettles(p.(eventId := Some(e.id), eventData := e.data), maximum);
        FeedStream(q, events[1..], maximum);
      }
    }
  }

  lemma {:induction false} DispatchSettles(p: Parser, maximum: nat)
    requires !IsError(p) && p.line == []
    ensures IsError(DispatchEvent(p, maximum)) || Settled(DispatchEvent(p, maximum))
  {
  }

  // ---------- the audio of any stream ----------

  /** The parser has read what the reading says. */
  ghost predicate Agrees(p: Parser, r: Reading, maximum: nat) {
    && (IsError(p) <==> Refused(r, maximum))
    && (IsError(p) ==> p.audio == [])
    && (!IsError(p) ==>
          && p.eventId == r.id && p.eventData == r.data
          && p.audio == AudioOf(r.events) && (p.status == Complete <==> Ended(r.events)))
  }

  lemma {:induction false} AudioAdds(events: seq<Event>, e: Event)
    ensures AudioOf(events + [e]) == AudioOf(events) + SoundOf(e)
    ensures AllAdmitted(events + [e]) <==> AllAdmitted(events) && Admitted(e)
    ensures Ended(events + [e]) <==> Ended(events) || e.id == 152
  {
    hide Admitted, SoundOf;
    var all := events + [e];
    assert all[..|events|] == events && all[|events|] == e;
    assert forall i :: 0 <= i < |events| ==> all[i] == events[i];
    if Ended(events) {
      var i :| 0 <= i < |events| && events[i].id == 152;
      assert all[i].id == 152;
    }
  }

  /** Once refused, a stream stays refused. */
  lemma {:induction false} RefusedStays(r: Reading, line: seq<byte>, maximum: nat)
    requires Refused(r, maximum)
    ensures Refused(ReadLine(r, line), maximum)
  {
    hide Admitted, SoundOf, AllAdmitted, AudioOf;
    if line == [] && r.id.Some? {
      AudioAdds(r.events, Event(r.id.value, r.data));
    }
  }

  lemma {:induction false} RefusedForGood(r: Reading, lines: seq<seq<byte>>, maximum: nat)
    requires Refused(r, maximum)
    ensures Refused(ReadLines(r, lines), maximum)
    decreases |lines|
  {
    hide Refused, ReadLine;
    if lines != [] {
      RefusedStays(r, lines[0], maximum);
      RefusedForGood(ReadLine(r, lines[0]), lines[1..], maximum);
    }
  }

  /** One whole event is refused exactly when it is not admitted or finds no room; otherwise its sound is added. */
  lemma {:induction false} DispatchMeans(p: Parser, e: Event, maximum: nat)
    requires !IsError(p) && p.eventId == Some(e.id) && p.eventData == e.data && e.data != [] && |p.audio| <= maximum
    ensures var q := DispatchEvent(p, maximum);
      && (IsError(q) <==> !Admitted(e) || |p.audio + SoundOf(e)| > maximum)
      && (IsError(q) ==> q.audio == [] && q.status == if Admitted(e) then TooLarge else RefusalOf(e))
      && (!IsError(q) ==>
            && q.eventId == None && q.eventData == [] && q.audio == p.audio + SoundOf(e)
            && (q.status == Complete <==> p.status == Complete || e.id == 152))
  {
    Keys();
    hide FindInteger, FindString;
    assert p.audio + [] == p.audio;
  }

  lemma {:induction false} BlankAgrees(p: Parser, r: Reading, maximum: nat)
    requires Agrees(p, r, maximum) && !IsError(p)
    ensures Agrees(DispatchEvent(p, maximum), ReadLine(r, []), maximum)
  {
    hide Admitted, SoundOf, AudioOf, AllAdmitted, Ended;
    if r.id.Some? && r.data != [] {
      hide DispatchEvent;
      var e := Event(r.id.value, r.data);
      DispatchMeans(p, e, maximum);
      AudioAdds(r.events, e);
    }
  }

  lemma {:induction false} LineAgrees(p: Parser, r: Reading, line: seq<byte>, maximum: nat)
    requires Agrees(p, r, maximum) && !IsError(p)
    ensures Agrees(ProcessLine(p, line, maximum), ReadLine(r, line), maximum)
  {
    hide DispatchEvent, AudioOf, AllAdmitted, Ended;
    if line == [] {
      BlankAgrees(p, r, maximum);
    }
  }

  lemma {:induction false} EndAgrees(p: Parser, r: Reading, maximum: nat)
    requires Agrees(p, r, maximum) && !IsError(p)
    ensures Agrees(EndLine(p, maximum), ReadLine(r, Stripped(p.line)), maximum)
  {
    hide ProcessLine, ReadLine, Refused, AudioOf, Ended;
    var q := p.(line := Stripped(p.line));
    LineAgrees(q, r, q.line, maximum);
  }

  lemma {:induction false} FeedAgrees(p: Parser, r: Reading, stream: seq<byte>, maximum: nat)
    requires Agrees(p, r, maximum) && !IsError(p)
    ensures Agrees(Feed(p, stream, maximum), ReadLines(r, Lines(stream, p.line)), maximum)
    decreases |stream|
  {
    hide EndLine, ReadLine, Refused, AudioOf, Ended, Stripped;
    if stream != [] {
      if stream[0] == LF {
        EndAgrees(p, r, maximum);
        var q := EndLine(p, maximum);
        var next := ReadLine(r, Stripped(p.line));
        var lines := Lines(stream[1..], []);
        assert Lines(stream, p.line) == [Stripped(p.line)] + lines;
        assert ([Stripped(p.line)] + lines)[1..] == lines;
        if IsError(q) {
          ErrorsAbsorb(q, stream[1..], maximum);
          RefusedForGood(next, lines, maximum);
        } else {
          EndClears(p, maximum);
          FeedAgrees(q, next, stream[1..], maximum);
        }
      } else {
        FeedAgrees(p.(line := p.line + [stream[0]]), r, stream[1..], maximum);
      }
    }
  }

  lemma {:induction false} EndClears(p: Parser, maximum: nat)
    ensures !IsError(EndLine(p, maximum)) ==> EndLine(p, maximum).line == []
  {
    hide ProcessLine;
  }

  /**
   Whatever octets are fed, the parser refuses exactly the streams that do not read as events, hold an event that is
   not admitted, or carry more than the maximum; the audio of any other is the payloads of its events numbered 352.
   */
  lemma {:induction false} AudioOfStream(stream: seq<byte>, maximum: nat)
    ensures var p := Feed(FRESH, stream, maximum); var r := ReadLines(UNREAD, Lines(stream, []));
      && (IsError(p) <==> Refused(r, maximum))
      && p.audio == (if Refused(r, maximum) then [] else AudioOf(r.events))
      && (!IsError(p) ==> (p.status == Complete <==> Ended(r.events)))
  {
    hide Feed, ReadLines, Lines;
    assert AudioOf([]) == [] && !Ended([]);
    FeedAgrees(FRESH, UNREAD, stream, maximum);
  }

  /** The last line of a stream, which has not ended. */
  function LastLine(stream: seq<byte>, current: seq<byte>): seq<byte>
    decreases |stream|
  {
    if stream == [] then current
    else LastLine(stream[1..], if stream[0] == LF then [] else current + [stream[0]])
  }

  lemma {:induction false} FeedLeaves(p: Parser, stream: seq<byte>, maximum: nat)
    requires !IsError(p) && !IsError(Feed(p, stream, maximum))
    ensures Feed(p, stream, maximum).line == LastLine(stream, p.line)
    decreases |stream|
  {
    hide EndLine;
    if stream != [] {
      var q := FeedOctet(p, stream[0], maximum);
      if IsError(q) {
        ErrorsAbsorb(q, stream[1..], maximum);
        assert false;
      } else {
        EndClears(p, maximum);
        FeedLeaves(q, stream[1..], maximum);
      }
    }
  }

  /** The events of a whole stream: what finish() does with the line and the event in progress. */
  function ReadAll(stream: seq<byte>): Reading {
    var r := ReadLines(UNREAD, Lines(stream, []));
    ReadLine(if LastLine(stream, []) == [] then r else ReadLine(r, LastLine(stream, [])), [])
  }

  /** A finished stream is accepted exactly when it is not refused and has its closing event. */
  lemma {:induction false} FinishVerdict(stream: seq<byte>, maximum: nat)
    ensures var p := Finish(Feed(FRESH, stream, maximum), maximum); var r := ReadAll(stream);
      && (!IsError(p) <==> !Refused(r, maximum) && Ended(r.events))
      && p.audio == (if IsError(p) then [] else AudioOf(r.events))
  {
    hide Feed, ReadLines, Lines, LastLine, ProcessLine, DispatchEvent, ReadLine, Refused, AudioOf, Ended;
    EmptyAudio();
    FeedAgrees(FRESH, UNREAD, stream, maximum);
    var p, r := Feed(FRESH, stream, maximum), ReadLines(UNREAD, Lines(stream, []));
    var last := LastLine(stream, []);
    if IsError(p) {
      RefusedStays(r, last, maximum);
      RefusedStays(r, [], maximum);
      RefusedStays(ReadLine(r, last), [], maximum);
    } else {
      FeedLeaves(FRESH, stream, maximum);
      FinishAgrees(p, r, maximum);
    }
  }

  lemma {:induction false} EmptyAudio()
    ensures Agrees(FRESH, UNREAD, 0) && forall maximum: nat :: Agrees(FRESH, UNREAD, maximum)
  {
    assert AudioOf([]) == [] && !Ended([]);
  }

  lemma {:induction false} FinishAgrees(p: Parser, r: Reading, maximum: nat)
    requires Agrees(p, r, maximum) && !IsError(p)
    ensures var t := Finish(p, maximum); var q := ReadLine(if p.line == [] then r else ReadLine(r, p.line), []);
      && (!IsError(t) <==> !Refused(q, maximum) && Ended(q.events))
      && t.audio == (if IsError(t) then [] else AudioOf(q.events))
  {
    hide ProcessLine, DispatchEvent, ReadLine, Refused, AudioOf, Ended;
    var q := if p.line == [] then p else ProcessLine(p, p.line, maximum);
    var s := if p.line == [] then r else ReadLine(r, p.line);
    if p.line != [] {
      LineAgrees(p, r, p.line, maximum);
    }
    if IsError(q) {
      RefusedStays(s, [], maximum);
    } else {
      BlankAgrees(q.(line := []), s, maximum);
    }
  }

  /** Reading what was written gives the events back. */
  lemma {:induction false} StreamReads(events: seq<Event>, maximum: nat)
    requires forall i :: 0 <= i < |events| ==> OneLine(events[i].data)
    ensures var p := Feed(FRESH, StreamText(events), maximum);
      && (IsError(p) <==> !AllAdmitted(events) || |AudioOf(events)| > maximum)
      && p.audio == (if IsError(p) then [] else AudioOf(events))
  {
    hide Feed, AudioOf, AllAdmitted, StreamText, OneLine, DispatchEvent;
    EmptyAudio();
    FeedStream(FRESH, events, maximum);
    DispatchAllMeans(FRESH, [], events, maximum);
    assert [] + events == events;
  }

  lemma {:induction false} DispatchAllMeans(p: Parser, done: seq<Event>, events: seq<Event>, maximum: nat)
    requires Settled(p) && Agrees(p, Reading(done, None, [], false), maximum)
    requires forall i :: 0 <= i < |events| ==> OneLine(events[i].data)
    ensures var q := DispatchAll(p, events, maximum);
      && (IsError(q) <==> !AllAdmitted(done + events) || |AudioOf(done + events)| > maximum)
      && q.audio == (if IsError(q) then [] else AudioOf(done + events))
    decreases |events|
  {
    hide AudioOf, Ended, AllAdmitted, DispatchEvent, Refused;
    if events == [] {
      assert done + events == done;
      Unrefused(Reading(done, None, [], false), maximum);
    } else {
      var e, rest := events[0], events[1..];
      var q := p.(eventId := Some(e.id), eventData := e.data);
      var r := Reading(done, Some(e.id), e.data, false);
      Unrefused(Reading(done, None, [], false), maximum);
      Unrefused(r, maximum);
      BlankAgrees(q, r, maximum);
      var next := done + [e];
      assert ReadLine(r, []) == Reading(next, None, [], false);
      var t := DispatchEvent(q, maximum);
      assert next + rest == done + events;
      Unrefused(Reading(next, None, [], false), maximum);
      if IsError(t) {
        assert DispatchAll(t, rest, maximum) == t;
        OnlyMore(next, rest);
      } else {
        DispatchSettles(q, maximum);
        DispatchAllMeans(t, next, rest, maximum);
      }
    }
  }

  lemma {:induction false} Unrefused(r: Reading, maximum: nat)
    requires !r.bad
    ensures Refused(r, maximum) <==> !AllAdmitted(r.events) || |AudioOf(r.events)| > maximum
  {
  }

  /** More events do not make up for an event refused, nor for too much audio. */
  lemma {:induction false} OnlyMore(events: seq<Event>, more: seq<Event>)
    ensures AllAdmitted(events + more) ==> AllAdmitted(events)
    ensures |AudioOf(events + more)| >= |AudioOf(events)|
    decreases |more|
  {
    hide Admitted, SoundOf, AudioOf, AllAdmitted;
    if more == [] {
      assert events + more == events;
    } else {
      AudioAdds(events + more[..|more| - 1], more[|more| - 1]);
      assert events + more[..|more| - 1] + [more[|more| - 1]] == events + more;
      OnlyMore(events, more[..|more| - 1]);
    }
  }
}
