/** The coroutines of cencode.c and cdecode.c, writing through a pointer into the caller's buffer. */
module Base64Coroutines {
  import opened ByteBuffers
  import opened Common
  import opened Base64Streams
  import B = Base64

  class EncodeState {
    var step: Step
    var result: nat
    var stepCount: nat

    function State(): Encoder
      reads this
    {
      Encoder(step, result, stepCount)
    }

    constructor ()
      ensures State() == START
    {
      step, result, stepCount := A, 0, 0;
    }

    /** *codechar++ = c. */
    static method Emit(out: array<byte>, at: nat, c: byte) returns (end: nat)
      requires at < out.Length
      modifies out
      ensures end == at + 1 && out[..] == Overwrite(old(out[..]), at, [c])
    {
      out[at] := c;
      end := at + 1;
    }

    /** The code behind step_A: the first octet of a group. It falls through to step_B. */
    static method PutFirst(local: nat, groups: nat, fragment: byte, out: array<byte>, at: nat)
      returns (result: nat, end: nat)
      requires EncoderOk(Encoder(A, local, groups)) && at < out.Length
      modifies out
      ensures var (f, chars) := PutA(Encoder(A, local, groups), fragment);
        && f == Encoder(B, result, groups) && end == at + |chars| && out[..] == Overwrite(old(out[..]), at, chars)
    {
      hide B.Letter, Overwrite;
      result := fragment / 4;
      end := Emit(out, at, B.Letter(result));
      result := fragment % 4 * 16;
    }

    /** The code behind step_B; it falls through to step_C. */
    static method PutSecond(local: nat, groups: nat, fragment: byte, out: array<byte>, at: nat)
      returns (result: nat, end: nat)
      requires EncoderOk(Encoder(B, local, groups)) && at < out.Length
      modifies out
      ensures var (f, chars) := PutB(Encoder(B, local, groups), fragment);
        && f == Encoder(C, result, groups) && end == at + |chars| && out[..] == Overwrite(old(out[..]), at, chars)
    {
      hide B.Letter, Overwrite;
      result := local + fragment / 16;
      end := Emit(out, at, B.Letter(result));
      result := fragment % 16 * 4;
    }

    /** The code behind step_C; the count of groups is kept in the state, and the loop goes on at step_A. */
    method PutThird(local: nat, fragment: byte, out: array<byte>, at: nat) returns (result: nat, end: nat)
      requires EncoderOk(Encoder(C, local, stepCount))
      requires at + |PutC(Encoder(C, local, stepCount), fragment).1| <= out.Length
      modifies this`stepCount, out
      ensures var (f, chars) := PutC(Encoder(C, local, old(stepCount)), fragment);
        && f == Encoder(A, result, stepCount) && end == at + |chars|
        && out[..] == Overwrite(old(out[..]), at, chars)
    {
      hide B.Letter, Overwrite;
      ghost var was := out[..];
      result := local + fragment / 64;
      ghost var first, second := B.Letter(result), B.Letter(fragment % 64);
      end := Emit(out, at, B.Letter(result));
      result := fragment % 64;
      end := Emit(out, end, B.Letter(result));
      OverwriteTwice(was, at, [first], [second]);
      assert [first] + [second] == [first, second];
      end := EndGroup(out, end, [first, second], was, at);
    }

    /** Lines 84-89: one more group, and the newline after the last one of a line. */
    method EndGroup(out: array<byte>, at: nat, ghost pair: seq<byte>, ghost was: seq<byte>, ghost from: nat)
      returns (end: nat)
      requires stepCount < CHARS_PER_LINE / 4 && from + |pair| == at && at + |LineEnd(stepCount)| <= out.Length
      requires |was| == out.Length && out[..] == Overwrite(was, from, pair)
      modifies this`stepCount, out
      ensures stepCount == (old(stepCount) + 1) % (CHARS_PER_LINE / 4)
      ensures end == at + |LineEnd(old(stepCount))|
      ensures out[..] == Overwrite(was, from, pair + LineEnd(old(stepCount)))
    {
      hide Overwrite;
      end := at;
      stepCount := stepCount + 1;
      if stepCount == CHARS_PER_LINE / 4 {
        end := Emit(out, end, NEWLINE);
        OverwriteTwice(was, from, pair, [NEWLINE]);
        stepCount := 0;
      } else {
        assert pair + [] == pair;
      }
    }

    /** One case label of the coroutine: its octet, and the label it goes on at. */
    method PutOctet(place: Step, local: nat, fragment: byte, out: array<byte>, at: nat)
      returns (next: Step, result: nat, end: nat)
      requires EncoderOk(Encoder(place, local, stepCount))
      requires at + |Put(Encoder(place, local, stepCount), fragment).1| <= out.Length
      modifies this`stepCount, out
      ensures var (f, chars) := Put(Encoder(place, local, old(stepCount)), fragment);
        && f == Encoder(next, result, stepCount) && end == at + |chars|
        && out[..] == Overwrite(old(out[..]), at, chars)
    {
      hide B.Letter, Overwrite;
      match place {
        case A =>
          result, end := PutFirst(local, stepCount, fragment, out, at);
          next := B;
        case B =>
          result, end := PutSecond(local, stepCount, fragment, out, at);
          next := C;
        case C =>
          result, end := PutThird(local, fragment, out, at);
          next := A;
      }
    }

    /**
     base64_encode_block, writing at `at`. The coroutine works on its own `local` result and runs from label to
     label; result and step go back into the state only where it leaves.
     */
    method EncodeBlock(plain: seq<byte>, out: array<byte>, at: nat) returns (length: nat)
      requires EncoderOk(State()) && at + |PutAll(State(), plain).1| <= out.Length
      modifies this, out
      ensures State() == PutAll(old(State()), plain).0 && length == |PutAll(old(State()), plain).1|
      ensures out[..] == Overwrite(old(out[..]), at, PutAll(old(State()), plain).1)
    {
      hide Put, Overwrite;
      ghost var start, all := out[..], PutAll(State(), plain);
      ghost var written: seq<byte> := [];
      OverwriteNone(start, at);
      assert plain[0..] == plain && [] + all.1 == all.1;
      var place, local, codechar := step, result, at;
      var plainchar: nat := 0;
      while plainchar != |plain|
        invariant plainchar <= |plain| && codechar == at + |written|
        invariant EncoderOk(Encoder(place, local, stepCount))
        invariant var (f, chars) := PutAll(Encoder(place, local, stepCount), plain[plainchar..]);
          all == (f, written + chars)
        invariant codechar <= out.Length && out[..] == Overwrite(start, at, written)
        decreases |plain| - plainchar
      {
        ghost var e := Encoder(place, local, stepCount);
        ghost var (f, head) := Put(e, plain[plainchar]);
        PutNext(e, plain[plainchar..]);
        assert plain[plainchar..][1..] == plain[plainchar + 1..];
        place, local, codechar := PutOctet(place, local, plain[plainchar], out, codechar);
        OverwriteTwice(start, at, written, head);
        assert written + (head + PutAll(f, plain[plainchar + 1..]).1)
            == written + head + PutAll(f, plain[plainchar + 1..]).1;
        written := written + head;
        plainchar := plainchar + 1;
      }
      result, step := local, place;
      assert written + [] == written;
      return codechar - at;
    }

    /** base64_encode_blockend. */
    method EncodeBlockEnd(out: array<byte>, at: nat) returns (end: nat)
      requires EncoderOk(State()) && at + |Finish(State())| <= out.Length
      modifies out
      ensures end == at + |Finish(State())| && out[..] == Overwrite(old(out[..]), at, Finish(State()))
    {
      hide B.Letter, Overwrite;
      ghost var was := out[..];
      end := at;
      OverwriteNone(was, at);
      match step {
        case B =>
          end := Emit(out, end, B.Letter(result));
          end := Emit(out, end, B.PAD);
          OverwriteTwice(was, at, [B.Letter(result)], [B.PAD]);
          end := Emit(out, end, B.PAD);
          OverwriteTwice(was, at, [B.Letter(result)] + [B.PAD], [B.PAD]);
        case C =>
          end := Emit(out, end, B.Letter(result));
          end := Emit(out, end, B.PAD);
          OverwriteTwice(was, at, [B.Letter(result)], [B.PAD]);
        case A =>
      }
      ghost var tail := Finish(State())[..|Finish(State())| - 1];
      assert out[..] == Overwrite(was, at, tail) by {
        assert step == B ==> tail == [B.Letter(result)] + [B.PAD] + [B.PAD];
        assert step == C ==> tail == [B.Letter(result)] + [B.PAD];
      }
      end := Emit(out, end, 0);
      OverwriteTwice(was, at, tail, [0]);
      assert tail + [0] == Finish(State());
    }
  }

  class DecodeState {
    var step: Stage
    var plainChar: byte

    /** Between blocks the octet in progress matters only when one has been begun. */
    function State(): Decoder
      reads this
    {
      Decoder(step, if step == First then 0 else plainChar)
    }

    constructor ()
      ensures State() == READY
    {
      step, plainChar := First, 0;
    }

    /**
     One case label of the coroutine for the next six bits. The octet in progress stays in the buffer, and nothing
     of the state is touched.
     */
    static method TakeSextet(place: Stage, v: nat, out: array<byte>, at: nat) returns (next: Stage, end: nat)
      requires v < 64 && at < out.Length && DecoderOk(Decoder(place, if place == First then 0 else out[at]))
      requires at + |TakeValue(Decoder(place, if place == First then 0 else out[at]), v).1| < out.Length
      modifies out
      ensures var (f, octets) := TakeValue(old(Decoder(place, if place == First then 0 else out[at])), v);
        && end == at + |octets| < out.Length && f == Decoder(next, if next == First then 0 else out[end])
        && out[at..end] == octets
      ensures out[..at] == old(out[..at]) && out[end + 1..] == old(out[end + 1..])
    {
      end := at;
      match place {
        case First =>
          out[at] := v * 4;
          next := Second;
        case Second =>
          end := at + 1;
          out[at], out[end] := out[at] + v / 16, v % 16 * 16;
          next := Third;
        case Third =>
          end := at + 1;
          out[at], out[end] := out[at] + v / 4, v % 4 * 64;
          next := Fourth;
        case Fourth =>
          end := at + 1;
          out[at] := out[at] + v;
          next := First;
      }
    }

    /** The loop of a case label: a character, passed over when its value is negative. */
    static method TakeChar(place: Stage, c: byte, beyond: int, out: array<byte>, at: nat)
      returns (next: Stage, end: nat)
      requires at < out.Length && DecoderOk(Decoder(place, if place == First then 0 else out[at]))
      requires at + |Take(Decoder(place, if place == First then 0 else out[at]), c, beyond).1| < out.Length
      modifies out
      ensures var (f, octets) := Take(old(Decoder(place, if place == First then 0 else out[at])), c, beyond);
        && end == at + |octets| < out.Length && f == Decoder(next, if next == First then 0 else out[end])
        && out[at..end] == octets
      ensures out[..at] == old(out[..at]) && out[end + 1..] == old(out[end + 1..])
    {
      hide DecodeValue, TakeValue;
      next, end := place, at;
      var fragment := DecodeValue(c, beyond);
      if fragment >= 0 {
        next, end := TakeSextet(place, fragment % 64, out, at);
      }
    }

    /**
     base64_decode_block, writing at `at`. The octet in progress lies in the buffer; it and the step go into the
     state only where the coroutine leaves, and come back into the buffer where it enters.
     */
    method DecodeBlock(code: seq<byte>, beyond: int, out: array<byte>, at: nat) returns (length: nat)
      requires DecoderOk(State()) && at + |TakeAll(State(), code, beyond).1| < out.Length
      modifies this, out
      ensures State() == TakeAll(old(State()), code, beyond).0
      ensures length == |TakeAll(old(State()), code, beyond).1|
      ensures Holds(out[..], old(out[..]), at, TakeAll(old(State()), code, beyond).1)
      ensures step != First ==> out[at + length] == plainChar
    {
      hide Take;
      ghost var all, was := TakeAll(State(), code, beyond), out[..];
      ghost var written: seq<byte> := [];
      assert code[0..] == code && [] + all.1 == all.1;
      out[at] := plainChar;
      var place, cursor := step, at;
      var codechar: nat := 0;
      while codechar != |code|
        invariant codechar <= |code| && cursor == at + |written| < out.Length
        invariant DecoderOk(Decoder(place, if place == First then 0 else out[cursor]))
        invariant var (f, octets) :=
            TakeAll(Decoder(place, if place == First then 0 else out[cursor]), code[codechar..], beyond);
          all == (f, written + octets)
        invariant out[at..cursor] == written && out[..at] == was[..at] && out[cursor + 1..] == was[cursor + 1..]
        decreases |code| - codechar
      {
        ghost var d := Decoder(place, if place == First then 0 else out[cursor]);
        ghost var (f, head) := Take(d, code[codechar], beyond);
        assert code[codechar..][1..] == code[codechar + 1..];
        ghost var before, from := out[..], cursor;
        place, cursor := TakeChar(place, code[codechar], beyond, out, cursor);
        Grown(before, out[..], at, from, cursor, was);
        assert written + (head + TakeAll(f, code[codechar + 1..], beyond).1)
            == written + head + TakeAll(f, code[codechar + 1..], beyond).1;
        written := written + head;
        codechar := codechar + 1;
      }
      assert written + [] == written;
      step, plainChar := place, out[cursor];
      return cursor - at;
    }
  }

  /** What was written before stays, and what lies beyond is still as it was. */
  lemma {:induction false} Grown(s: seq<byte>, t: seq<byte>, at: nat, from: nat, to: nat, was: seq<byte>)
    requires |s| == |t| == |was| && at <= from <= to < |t|
    requires t[..from] == s[..from] && t[to + 1..] == s[to + 1..]
    requires s[..at] == was[..at] && s[from + 1..] == was[from + 1..]
    ensures t[at..to] == s[at..from] + t[from..to] && t[..at] == was[..at] && t[to + 1..] == was[to + 1..]
  {
    assert t[..at] == t[..from][..at] && s[..at] == s[..from][..at];
    assert t[at..from] == t[..from][at..] && s[at..from] == s[..from][at..];
    assert s[to + 1..] == s[from + 1..][to - from..] && was[to + 1..] == was[from + 1..][to - from..];
  }

  // ---------- blocks ----------

  /** However a message is cut into blocks, they fill the buffer and leave the state as one block does. */
  method EncodeBlocks(x: EncodeState, y: EncodeState, blocks: seq<seq<byte>>, out: array<byte>, whole: array<byte>,
                      at: nat)
    returns (length: nat, wholeLength: nat)
    requires x != y && x.State() == y.State() && EncoderOk(x.State())
    requires out != whole && out[..] == whole[..] && at + |PutAll(x.State(), Joined(blocks)).1| <= out.Length
    modifies x, y, out, whole
    ensures x.State() == y.State() && out[..] == whole[..] && length == wholeLength
  {
    hide PutAll, Overwrite;
    ghost var start, all := out[..], PutAll(x.State(), Joined(blocks));
    ghost var written: seq<byte> := [];
    OverwriteNone(start, at);
    assert blocks[0..] == blocks && [] + all.1 == all.1;
    length := 0;
    var i := 0;
    while i < |blocks|
      invariant 0 <= i <= |blocks| && length == |written| && EncoderOk(x.State())
      invariant y.State() == old(y.State()) && whole[..] == start
      invariant var (f, chars) := PutAll(x.State(), Joined(blocks[i..])); all == (f, written + chars)
      invariant at + length <= out.Length && out[..] == Overwrite(start, at, written)
    {
      ghost var e := x.State();
      assert blocks[i..][1..] == blocks[i + 1..];
      PutAllSplits(e, blocks[i], Joined(blocks[i + 1..]));
      ghost var (f, head) := PutAll(e, blocks[i]);
      ghost var rest := PutAll(f, Joined(blocks[i + 1..])).1;
      assert written + (head + rest) == written + head + rest;
      var n := x.EncodeBlock(blocks[i], out, at + length);
      OverwriteTwice(start, at, written, head);
      written, length, i := written + head, length + n, i + 1;
    }
    PutNothing(x.State());
    assert written + [] == written;
    wholeLength := y.EncodeBlock(Joined(blocks), whole, at);
  }

  lemma {:induction false} PutNothing(e: Encoder)
    requires EncoderOk(e)
    ensures PutAll(e, []) == (e, [])
  {
  }

  /** The octets `written` stand at `at`; but for them and the place behind them the buffer is as it was. */
  ghost predicate Holds(buffer: seq<byte>, was: seq<byte>, at: nat, written: seq<byte>) {
    && |buffer| == |was| && at + |written| < |was|
    && buffer[at..at + |written|] == written && buffer[..at] == was[..at]
    && buffer[at + |written| + 1..] == was[at + |written| + 1..]
  }

  lemma {:induction false} HoldsMore(s: seq<byte>, t: seq<byte>, was: seq<byte>, at: nat, x: seq<byte>, y: seq<byte>)
    requires Holds(s, was, at, x) && Holds(t, s, at + |x|, y)
    ensures Holds(t, was, at, x + y)
  {
    Grown(s, t, at, at + |x|, at + |x| + |y|, was);
  }

  lemma {:induction false} HoldsSame(s: seq<byte>, t: seq<byte>, was: seq<byte>, at: nat, x: seq<byte>)
    requires Holds(s, was, at, x) && Holds(t, was, at, x)
    ensures s[..at + |x|] == t[..at + |x|] && s[at + |x| + 1..] == t[at + |x| + 1..]
  {
    assert s[..at + |x|] == s[..at] + s[at..at + |x|] && t[..at + |x|] == t[..at] + t[at..at + |x|];
  }

  /** The same for decoding; past the octets only the one in progress may differ, and only when none is. */
  method DecodeBlocks(x: DecodeState, y: DecodeState, blocks: seq<seq<byte>>, beyond: int, out: array<byte>,
                      whole: array<byte>, at: nat)
    returns (length: nat, wholeLength: nat)
    requires x != y && x.State() == y.State() && DecoderOk(x.State())
    requires out != whole && out[..] == whole[..]
    requires at + |TakeAll(x.State(), Joined(blocks), beyond).1| < out.Length
    modifies x, y, out, whole
    ensures x.State() == y.State() && length == wholeLength && at + length < out.Length == whole.Length
    ensures out[..at + length] == whole[..at + length] && out[at + length + 1..] == whole[at + length + 1..]
  {
    hide TakeAll, Holds;
    ghost var start, all := out[..], TakeAll(x.State(), Joined(blocks), beyond);
    HoldsNothing(start, at);
    ghost var written: seq<byte> := [];
    assert blocks[0..] == blocks && [] + all.1 == all.1;
    length := 0;
    var i := 0;
    while i < |blocks|
      invariant 0 <= i <= |blocks| && length == |written| && DecoderOk(x.State())
      invariant y.State() == old(y.State()) && whole[..] == start
      invariant var (f, octets) := TakeAll(x.State(), Joined(blocks[i..]), beyond); all == (f, written + octets)
      invariant at + length < out.Length && Holds(out[..], start, at, written)
    {
      ghost var d := x.State();
      assert blocks[i..][1..] == blocks[i + 1..];
      TakeAllSplits(d, blocks[i], Joined(blocks[i + 1..]), beyond);
      ghost var (f, head) := TakeAll(d, blocks[i], beyond);
      ghost var rest := TakeAll(f, Joined(blocks[i + 1..]), beyond).1;
      assert written + (head + rest) == written + head + rest;
      ghost var before := out[..];
      var n := x.DecodeBlock(blocks[i], beyond, out, at + length);
      HoldsMore(before, out[..], start, at, written, head);
      written, length, i := written + head, length + n, i + 1;
    }
    TakeNothing(x.State(), beyond);
    assert written + [] == written;
    wholeLength := y.DecodeBlock(Joined(blocks), beyond, whole, at);
    HoldsSame(out[..], whole[..], start, at, written);
  }

  lemma {:induction false} HoldsNothing(was: seq<byte>, at: nat)
    requires at < |was|
    ensures Holds(was, was, at, [])
  {
  }

  lemma {:induction false} TakeNothing(d: Decoder, beyond: int)
    requires DecoderOk(d)
    ensures TakeAll(d, [], beyond) == (d, [])
  {
  }
}
