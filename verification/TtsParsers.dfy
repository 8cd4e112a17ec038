/**
 The parser object of doubao_tts_sse.h. Each method is tied to the operation of TtsStream it performs; while it is
 fed, its verdict and its audio are those of the events of everything fed so far.
 */
module TtsParsers {
  import opened Common
  import opened JsonStrings
  import opened Numerals
  import opened TtsStream
  import B = Base64

  class DoubaoTtsSseParser {
    const maxAudioBytes: nat
    var status: Status
    var providerCode: nat
    var eventId: Option<nat>
    var eventData: seq<byte>
    var currentLine: seq<byte>
    var audio: seq<byte>
    ghost var fed: seq<byte>           // everything fed so far

    ghost function State(): Parser
      reads this
    {
      Parser(status, providerCode, eventId, eventData, currentLine, audio)
    }

    /** The parser is where feeding it everything at once would have left it. */
    ghost predicate Valid()
      reads this
    {
      State() == Feed(FRESH, fed, maxAudioBytes)
    }

    constructor (maximum: nat)
      ensures Valid() && State() == FRESH && fed == [] && maxAudioBytes == maximum
    {
      maxAudioBytes, status, providerCode, eventId := maximum, Receiving, 0, None;
      eventData, currentLine, audio, fed := [], [], [], [];
    }

    method HasFailed() returns (error: bool)
      ensures error == IsError(State())
    {
      error := status == ProviderError || status == ProtocolError || status == TooLarge;
    }

    method FailWith(s: Status)
      modifies this`status, this`audio
      ensures State() == Fail(old(State()), s)
    {
      status := s;
      audio := [];
    }

    /** The octets of one feed(). */
    method FeedOctets(chunk: seq<byte>) returns (ok: bool)
      modifies this
      ensures State() == Feed(old(State()), chunk, maxAudioBytes) && ok == !IsError(State())
    {
      hide EndLine;
      var failed := HasFailed();
      if failed {
        ErrorsAbsorb(State(), chunk, maxAudioBytes);
        return false;
      }
      var i := 0;
      assert chunk[0..] == chunk;
      while i < |chunk|
        invariant 0 <= i <= |chunk| && !IsError(State())
        invariant Feed(State(), chunk[i..], maxAudioBytes) == Feed(old(State()), chunk, maxAudioBytes)
      {
        ghost var rest := chunk[i + 1..];
        assert chunk[i..][0] == chunk[i] && chunk[i..][1..] == rest;
        if chunk[i] == LF {
          var fine := EndCurrentLine();
          if !fine {
            ErrorsAbsorb(State(), rest, maxAudioBytes);
            return false;
          }
        } else {
          currentLine := currentLine + [chunk[i]];
        }
        i := i + 1;
      }
      failed := HasFailed();
      return !failed;
    }

    /** feed(): the verdict and the audio depend on nothing but all that was fed. */
    method FeedChunk(chunk: seq<byte>) returns (ok: bool)
      modifies this
      ensures State() == Feed(old(State()), chunk, maxAudioBytes) && ok == !IsError(State())
      ensures fed == old(fed) + chunk
      ensures old(Valid()) ==>
        var r := ReadLines(UNREAD, Lines(fed, []));
        && Valid()
        && (ok <==> !Refused(r, maxAudioBytes))
        && audio == (if ok then AudioOf(r.events) else [])
    {
      hide Feed, ReadLines, Lines, Refused, AudioOf;
      ghost var all := fed + chunk;
      ok := FeedOctets(chunk);
      fed := all;
      FeedSplits(FRESH, old(fed), chunk, maxAudioBytes);
      AudioOfStream(fed, maxAudioBytes);
    }

    /** Lines 98-103: the end of a line. */
    method EndCurrentLine() returns (ok: bool)
      requires !IsError(State())
      modifies this
      ensures State() == EndLine(old(State()), maxAudioBytes) && ok == !IsError(State())
    {
      hide ProcessLine;
      if currentLine != [] && currentLine[|currentLine| - 1] == CR {
        currentLine := currentLine[..|currentLine| - 1];
      }
      ok := ProcessOneLine(currentLine);
      if ok {
        currentLine := [];
      }
    }

    /** processLine(). */
    method ProcessOneLine(line: seq<byte>) returns (ok: bool)
      requires !IsError(State())
      modifies this
      ensures State() == ProcessLine(old(State()), line, maxAudioBytes) && ok == !IsError(State())
    {
      hide DispatchEvent;
      if line == [] {
        ok := Dispatch();
        return;
      }
      if StartsWith(line, EVENT_PREFIX) {
        ok := EventLine(line);
        return;
      }
      if StartsWith(line, DATA_PREFIX) {
        var cursor := 5;
        if cursor < |line| && line[cursor] == SPACE {
          cursor := cursor + 1;
        }
        if eventData != [] {
          eventData := eventData + [LF];
        }
        eventData := eventData + line[cursor..];
      }
      return true;
    }

    method EventLine(line: seq<byte>) returns (ok: bool)
      requires !IsError(State()) && StartsWith(line, EVENT_PREFIX)
      modifies this
      ensures State() == ProcessLine(old(State()), line, maxAudioBytes) && ok == !IsError(State())
    {
      hide DispatchEvent;
      var cursor := 6;
      while cursor < |line| && line[cursor] == SPACE
        invariant 6 <= cursor <= |line| && SkipBlanks(line, cursor) == SkipBlanks(line, 6)
      {
        cursor := cursor + 1;
      }
      ghost var number := line[cursor..];
      if cursor == |line| {
        FailWith(ProtocolError);
        return false;
      }
      var event: nat, i := 0, 0;
      while cursor + i < |line|
        invariant 0 <= i <= |number| && AllDigits(number[..i]) && event == Decimal(number[..i])
      {
        assert number[i] == line[cursor + i] && number[..i + 1][..i] == number[..i];
        if !IsDigit(line[cursor + i]) {
          FailWith(ProtocolError);
          return false;
        }
        event := event * 10 + (line[cursor + i] - 48);
        i := i + 1;
      }
      assert number[..i] == number;
      eventId := Some(event);
      return true;
    }

    /** dispatchEvent(). */
    method Dispatch() returns (ok: bool)
      requires !IsError(State())
      modifies this
      ensures State() == DispatchEvent(old(State()), maxAudioBytes) && ok == !IsError(State())
    {
      hide FindInteger, TakeAudio;
      if eventId == None && eventData == [] {
        return true;
      }
      if eventId == None || eventData == [] {
        FailWith(ProtocolError);
        return false;
      }
      var event, data := eventId.value, eventData;
      eventId, eventData := None, [];
      var code := FindJsonInteger(data, CODE_KEY);
      if code == None {
        FailWith(ProtocolError);
        return false;
      }
      providerCode := code.value;
      if event == AUDIO_EVENT {
        if code.value != 0 {
          FailWith(ProviderError);
          return false;
        }
        ok := AppendAudio(data);
        return;
      }
      if event == DONE_EVENT {
        if code.value != SUCCESS_CODE {
          FailWith(ProviderError);
          return false;
        }
        status := Complete;
        return true;
      }
      if event == ERROR_EVENT {
        FailWith(ProviderError);
        return false;
      }
      return true;
    }

    /** Lines 197-213. */
    method AppendAudio(data: seq<byte>) returns (ok: bool)
      requires !IsError(State())
      modifies this
      ensures State() == TakeAudio(old(State()), data, maxAudioBytes) && ok == !IsError(State())
    {
      hide FindString, B.Decode;
      var encoded := FindJsonString(data, DATA_KEY, 0);
      if encoded == None {
        FailWith(ProtocolError);
        return false;
      }
      var decoded := B.DecodeTts(encoded.value);
      if decoded == None {
        FailWith(ProtocolError);
        return false;
      }
      if |decoded.value| > maxAudioBytes - Min(maxAudioBytes, |audio|) {
        FailWith(TooLarge);
        return false;
      }
      audio := audio + decoded.value;
      return true;
    }

    /** The steps of finish(). */
    method FinishSteps() returns (ok: bool)
      modifies this
      ensures State() == Finish(old(State()), maxAudioBytes) && ok == !IsError(State())
    {
      hide ProcessLine, DispatchEvent;
      var failed := HasFailed();
      if failed {
        return false;
      }
      if currentLine != [] {
        ok := ProcessOneLine(currentLine);
        if !ok {
          return;
        }
        currentLine := [];
      }
      NothingToDispatch(State(), maxAudioBytes);
      if eventId != None || eventData != [] {
        ok := Dispatch();
        if !ok {
          return;
        }
      }
      if status != Complete {
        FailWith(ProtocolError);
        return false;
      }
      return true;
    }

    /** finish(): accepts exactly a whole stream of admitted events with its closing one. */
    method FinishStream() returns (ok: bool)
      modifies this
      ensures State() == Finish(old(State()), maxAudioBytes) && ok == !IsError(State())
      ensures old(Valid()) ==>
        var r := ReadAll(old(fed));
        && (ok <==> !Refused(r, maxAudioBytes) && Ended(r.events))
        && audio == (if ok then AudioOf(r.events) else [])
    {
      hide Finish, Feed, ReadAll, Refused, AudioOf, Ended;
      FinishVerdict(fed, maxAudioBytes);
      ok := FinishSteps();
    }
  }

  // ---------- pieces ----------

  /** However a stream is cut, a parser fed the pieces ends where one fed the whole does, with the same verdict. */
  method FeedPieces(x: DoubaoTtsSseParser, y: DoubaoTtsSseParser, pieces: seq<seq<byte>>)
    returns (cut: bool, whole: bool)
    requires x != y && x.State() == y.State() && x.maxAudioBytes == y.maxAudioBytes && pieces != []
    modifies x, y
    ensures x.State() == y.State() && cut == whole && x.audio == y.audio
  {
    hide Feed;
    var i := 0;
    cut := false;
    assert pieces[0..] == pieces;
    while i < |pieces|
      invariant 0 <= i <= |pieces| && y.State() == old(y.State())
      invariant Feed(x.State(), Joined(pieces[i..]), x.maxAudioBytes)
             == Feed(old(x.State()), Joined(pieces), x.maxAudioBytes)
      invariant i > 0 ==> cut == !IsError(x.State())
    {
      assert pieces[i..][1..] == pieces[i + 1..];
      FeedSplits(x.State(), pieces[i], Joined(pieces[i + 1..]), x.maxAudioBytes);
      cut := x.FeedChunk(pieces[i]);
      i := i + 1;
    }
    FeedNothing(x.State(), x.maxAudioBytes);
    whole := y.FeedChunk(Joined(pieces));
  }

  lemma {:induction false} FeedNothing(p: Parser, maximum: nat)
    ensures Feed(p, [], maximum) == p
  {
  }

  lemma {:induction false} NothingToDispatch(p: Parser, maximum: nat)
    ensures p.eventId == None && p.eventData == [] ==> DispatchEvent(p, maximum) == p
  {
  }
}
