/**
 The SHA-1 of libsha1.c: a block is hashed through a schedule of sixteen words kept in place, and a message
 may arrive in any pieces.
 */
module Sha1Contexts {
  import opened Sha1
  import C = Common

  // ---------- the rewritten round functions ----------

  function Choose(w: word, x: word, y: word): word {
    (w & (x ^ y)) ^ y
  }

  function Majority(w: word, x: word, y: word): word {
    ((w | x) & y) | (w & x)
  }

  /** The new value of z in R0 to R4. */
  function Mix(z: word, f: word, data: word, k: word, rotated: word): word {
    z + (f + data + k + rotated)
  }

  lemma {:induction false} ChRewritten(w: word, x: word, y: word)
    ensures (w & (x ^ y)) ^ y == Ch(w, x, y)
  {
  }

  lemma {:induction false} MajRewritten(w: word, x: word, y: word)
    ensures ((w | x) & y) | (w & x) == Maj(w, x, y)
  {
  }

  /** The rewritten choice and majority are the standard's. */
  lemma {:induction false} FunctionsRewritten(w: word, x: word, y: word)
    ensures Choose(w, x, y) == Ch(w, x, y) && Majority(w, x, y) == Maj(w, x, y)
  {
    hide Ch, Maj;
    ChRewritten(w, x, y);
    MajRewritten(w, x, y);
  }

  lemma {:induction false} MixIsSum(z: word, f: word, data: word, k: word, rotated: word)
    ensures Mix(z, f, data, k, rotated) == Sum(rotated, f, z, k, data)
  {
  }

  function LittleEndian(a: octet, b: octet, c: octet, d: octet): word {
    (a as word) | ((b as word) << 8) | ((c as word) << 16) | ((d as word) << 24)
  }

  /** blk0: the octets of a word in the other order. */
  function Swapped(x: word): word {
    (((x << 24) | (x >> 8)) & 0xFF00_FF00) | (((x << 8) | (x >> 24)) & 0x00FF_00FF)
  }

  lemma {:induction false} SwappedReads(a: octet, b: octet, c: octet, d: octet)
    ensures Swapped(LittleEndian(a, b, c, d)) == BigEndian(a, b, c, d)
  {
  }

  // ---------- one block ----------

  /** The word at `k` as memcpy leaves it. */
  function Loaded(bytes: seq<octet>, k: nat): word
    requires |bytes| == 64 && k < 16
  {
    LittleEndian(bytes[4 * k], bytes[4 * k + 1], bytes[4 * k + 2], bytes[4 * k + 3])
  }

  /** Before round i the buffer holds the last sixteen words of the schedule, or the block not yet reached. */
  ghost predicate Window(l: seq<word>, bytes: seq<octet>, i: nat)
    requires |bytes| == 64
  {
    && |l| == 16
    && (forall t: nat :: i - 16 <= t < i ==> l[t % 16] == Schedule(bytes, t))
    && (forall k: nat :: i <= k < 16 ==> l[k] == Loaded(bytes, k))
  }

  lemma {:induction false} FreshWindow(l: seq<word>, bytes: seq<octet>)
    requires |bytes| == 64 && |l| == 16 && forall k: nat :: k < 16 ==> l[k] == Loaded(bytes, k)
    ensures Window(l, bytes, 0)
  {
  }

  /** What blk0 or blk computes from the buffer is the next word of the schedule. */
  lemma {:induction false} WindowReads(l: seq<word>, bytes: seq<octet>, i: nat)
    requires |bytes| == 64 && Window(l, bytes, i)
    ensures |l| == 16
    ensures i < 16 ==> Swapped(l[i]) == Schedule(bytes, i)
    ensures i >= 16 ==> Rotl1(l[(i + 13) % 16] ^ l[(i + 8) % 16] ^ l[(i + 2) % 16] ^ l[i % 16]) == Schedule(bytes, i)
  {
    hide Rotl1, Swapped, LittleEndian, BigEndian;
    if i < 16 {
      assert l[i] == Loaded(bytes, i);
      SwappedReads(bytes[4 * i], bytes[4 * i + 1], bytes[4 * i + 2], bytes[4 * i + 3]);
    } else {
      assert (i + 13) % 16 == (i - 3) % 16 && (i + 8) % 16 == (i - 8) % 16 && (i + 2) % 16 == (i - 14) % 16;
      assert (i - 16) % 16 == i % 16;
      assert l[(i - 3) % 16] == Schedule(bytes, i - 3) && l[(i - 8) % 16] == Schedule(bytes, i - 8);
      assert l[(i - 14) % 16] == Schedule(bytes, i - 14) && l[(i - 16) % 16] == Schedule(bytes, i - 16);
    }
  }

  lemma {:induction false} Apart(t: nat, i: nat)
    requires 0 < i - t < 16
    ensures t % 16 != i % 16
  {
  }

  lemma {:induction false} WindowMoves(l: seq<word>, bytes: seq<octet>, i: nat)
    requires |bytes| == 64 && Window(l, bytes, i)
    ensures |l| == 16 && Window(l[i % 16 := Schedule(bytes, i)], bytes, i + 1)
  {
    hide Schedule;
    forall t: nat | i - 15 <= t < i ensures t % 16 != i % 16 {
      Apart(t, i);
    }
  }

  /** blk0 or blk: the word of round i, put in its place. */
  method NextWord(block: array<word>, i: nat, ghost bytes: seq<octet>) returns (r: word)
    requires |bytes| == 64 && block.Length == 16 && Window(block[..], bytes, i)
    modifies block
    ensures r == Schedule(bytes, i) && Window(block[..], bytes, i + 1)
  {
    hide Rotl1, Swapped, LittleEndian, BigEndian, Window, Schedule;
    WindowReads(block[..], bytes, i);
    ghost var before := block[..];
    if i < 16 {
      block[i] := Swapped(block[i]);
    } else {
      block[i % 16] := Rotl1(block[(i + 13) % 16] ^ block[(i + 8) % 16] ^ block[(i + 2) % 16] ^ block[i % 16]);
    }
    r := block[i % 16];
    assert block[..] == before[i % 16 := r];
    WindowMoves(before, bytes, i);
  }

  /** R0 to R4: one round on the variables in the roles of that round. */
  method R(block: array<word>, v: word, w: word, x: word, y: word, z: word, i: nat, ghost bytes: seq<octet>)
    returns (newZ: word, newW: word)
    requires |bytes| == 64 && block.Length == 16 && Window(block[..], bytes, i)
    modifies block
    ensures Words(newZ, v, newW, x, y) == Round(Words(v, w, x, y, z), i, Schedule(bytes, i))
    ensures Window(block[..], bytes, i + 1)
  {
    hide Window, Schedule, Ch, Maj, Parity, Rotl5, Rotl30, Choose, Majority, Mix, Sum;
    var data := NextWord(block, i, bytes);
    FunctionsRewritten(w, x, y);
    var f := if i < 20 then Choose(w, x, y) else if 40 <= i < 60 then Majority(w, x, y) else Parity(w, x, y);
    var k: word :=
      if i < 20 then 0x5A827999 else if i < 40 then 0x6ED9EBA1 else if i < 60 then 0x8F1BBCDC else 0xCA62C1D6;
    MixIsSum(z, f, data, k, Rotl5(v));
    newZ, newW := Mix(z, f, data, k, Rotl5(v)), Rotl30(w);
  }

  lemma {:induction false} NoRounds(s: Words, bytes: seq<octet>)
    requires |bytes| == 64
    ensures Rounds(s, bytes, 0) == s
  {
  }

  lemma {:induction false} RoundsNext(s: Words, bytes: seq<octet>, t: nat)
    requires |bytes| == 64
    ensures Rounds(s, bytes, t + 1) == Round(Rounds(s, bytes, t), t, Schedule(bytes, t))
  {
  }

  /** The eighty rounds: sixteen groups of five, each bringing the variables back to their roles. */
  method AllRounds(block: array<word>, s: Words, ghost bytes: seq<octet>) returns (r: Words)
    requires |bytes| == 64 && block.Length == 16 && Window(block[..], bytes, 0)
    modifies block
    ensures r == Rounds(s, bytes, 80)
  {
    hide Round, Rounds, Schedule, Window;
    var a, b, c, d, e := s.a, s.b, s.c, s.d, s.e;
    NoRounds(s, bytes);
    var i := 0;
    while i < 80
      invariant 0 <= i <= 80 && i % 5 == 0 && Window(block[..], bytes, i)
      invariant Words(a, b, c, d, e) == Rounds(s, bytes, i)
      decreases 80 - i
    {
      RoundsNext(s, bytes, i);
      e, b := R(block, a, b, c, d, e, i, bytes);
      assert Words(e, a, b, c, d) == Rounds(s, bytes, i + 1);
      RoundsNext(s, bytes, i + 1);
      d, a := R(block, e, a, b, c, d, i + 1, bytes);
      assert Words(d, e, a, b, c) == Rounds(s, bytes, i + 2);
      RoundsNext(s, bytes, i + 2);
      c, e := R(block, d, e, a, b, c, i + 2, bytes);
      assert Words(c, d, e, a, b) == Rounds(s, bytes, i + 3);
      RoundsNext(s, bytes, i + 3);
      b, d := R(block, c, d, e, a, b, i + 3, bytes);
      assert Words(b, c, d, e, a) == Rounds(s, bytes, i + 4);
      RoundsNext(s, bytes, i + 4);
      a, c := R(block, b, c, d, e, a, i + 4, bytes);
      assert Words(a, b, c, d, e) == Rounds(s, bytes, i + 5);
      i := i + 5;
    }
    return Words(a, b, c, d, e);
  }

  /** SHA1Transform. */
  method Transform(state: array<word>, buffer: seq<octet>)
    requires state.Length == 5 && |buffer| == 64
    modifies state
    ensures WordsIn(state[..]) == Compress(WordsIn(old(state[..])), buffer)
  {
    hide Rounds, Window, Loaded, Plus;
    var block := new word[16](k requires 0 <= k < 16 => Loaded(buffer, k));
    FreshWindow(block[..], buffer);
    var working := AllRounds(block, WordsIn(state[..]), buffer);
    Store(state, Plus(WordsIn(state[..]), working));
  }

  method Store(state: array<word>, w: Words)
    requires state.Length == 5
    modifies state
    ensures WordsIn(state[..]) == w
  {
    state[0], state[1], state[2], state[3], state[4] := w.a, w.b, w.c, w.d, w.e;
  }

  function WordsIn(s: seq<word>): Words
    requires |s| == 5
  {
    Words(s[0], s[1], s[2], s[3], s[4])
  }

  // ---------- the bit count ----------

  const LIMIT: nat := 0x1_0000_0000

  /** The two words of the count after n octets: 8n modulo 2^64. */
  predicate Counted(n: nat, low: nat, high: nat) {
    low == 8 * n % LIMIT && high == 8 * n / LIMIT % LIMIT
  }

  lemma {:induction false} CountedIsBits(n: nat, low: nat, high: nat)
    requires Counted(n, low, high)
    ensures high * LIMIT + low == 8 * n % 0x1_0000_0000_0000_0000
  {
    var q := 8 * n / LIMIT;
    var m := q / LIMIT;
    assert 8 * n == q * LIMIT + low;
    assert q == m * LIMIT + high;
    ModOf(8 * n, m, high * LIMIT + low);
  }

  lemma {:induction false} ModOf(x: nat, m: nat, r: nat)
    requires x == m * 0x1_0000_0000_0000_0000 + r && r < 0x1_0000_0000_0000_0000
    ensures x % 0x1_0000_0000_0000_0000 == r
  {
  }

  lemma {:induction false} CountedOffset(n: nat, low: nat, high: nat)
    requires Counted(n, low, high)
    ensures low / 8 % 64 == n % 64
  {
    var q := 8 * n / LIMIT;
    assert 8 * n == q * LIMIT + low;
    assert low == 8 * (n - q * 0x2000_0000);
    assert n == 64 * (q * 0x80_0000) + low / 8;
  }

  lemma {:induction false} CountAdds(n: nat, low: nat, high: nat, len: nat)
    requires Counted(n, low, high) && len < LIMIT
    ensures high < LIMIT
    ensures var sum := (low + 8 * len % LIMIT) % LIMIT;
      Counted(n + len, sum, (high + (if sum < low then 1 else 0) + len / 0x2000_0000) % LIMIT)
  {
    var q, p, x := 8 * n / LIMIT, len / 0x2000_0000, 8 * len % LIMIT;
    var sum := (low + x) % LIMIT;
    var carry := if sum < low then 1 else 0;
    assert 8 * len == p * LIMIT + x;
    assert low + x == carry * LIMIT + sum;
    assert 8 * (n + len) == (q + p + carry) * LIMIT + sum;
    assert 8 * (n + len) / LIMIT == q + p + carry;
    assert (q + p + carry) % LIMIT == (q % LIMIT + p + carry) % LIMIT;
  }

  // ---------- the context ----------

  const MAX_UPDATE: nat := 0x1_0000_0000 - 64

  class Sha1Context {
    const state: array<word>
    const buffer: array<octet>
    var low: nat
    var high: nat
    ghost var message: seq<octet>

    /** Octets of the message in blocks already hashed. */
    ghost function Hashed(): (r: nat)
      reads this
      ensures r <= |message| < r + 64 && r % 64 == 0
    {
      |message| - |message| % 64
    }

    /** The first `hashed` octets of `m` are in the state and the rest are in the buffer. */
    ghost predicate Holds(m: seq<octet>, hashed: nat)
      requires hashed <= |m| < hashed + 64 && hashed % 64 == 0
      requires state.Length == 5 && buffer.Length == 64
      reads state, buffer
    {
      && buffer[..|m| - hashed] == m[hashed..]
      && WordsIn(state[..]) == Blocks(INITIAL, m[..hashed])
    }

    ghost predicate Valid()
      reads this, state, buffer
    {
      && state.Length == 5 && buffer.Length == 64
      && Counted(|message|, low, high) && Holds(message, Hashed())
    }

    constructor ()
      ensures Valid() && message == [] && fresh(state) && fresh(buffer)
    {
      state := new word[5];
      buffer := new octet[64];
      low, high, message := 0, 0, [];
      new;
      Store(state, INITIAL);
    }

    /** memcpy into the buffer. */
    method Copy(at: nat, bytes: seq<octet>)
      requires buffer.Length == 64 && at + |bytes| <= 64
      modifies buffer
      ensures buffer[..] == old(buffer[..at]) + bytes + old(buffer[at + |bytes|..])
    {
      forall k | 0 <= k < |bytes| {
        buffer[at + k] := bytes[k];
      }
    }

    /** The count goes up by the octets of one update. */
    method Count(len: nat)
      requires len < LIMIT && Counted(|message|, low, high)
      modifies this`low, this`high
      ensures Counted(|message| + len, low, high)
    {
      hide Counted;
      CountAdds(|message|, low, high, len);
      var j := low;
      low := (low + 8 * len % LIMIT) % LIMIT;
      if low < j {
        high := (high + 1) % LIMIT;
      }
      ghost var carried := high;
      high := (high + len / 0x2000_0000) % LIMIT;
      ModAdds(old(high) + (if low < j then 1 else 0), carried, len / 0x2000_0000);
    }

    /** Hash the block the data completes, and every whole block after it; how much of the data that took. */
    method HashBlocks(j: nat, data: seq<octet>, ghost from: nat) returns (i: nat)
      requires state.Length == 5 && buffer.Length == 64 && j < 64 <= j + |data|
      requires from % 64 == 0 && from + j == |message| && buffer[..j] == message[from..]
      requires WordsIn(state[..]) == Blocks(INITIAL, message[..from])
      modifies state, buffer
      ensures 64 - j <= i <= |data| < i + 64 && (|message| + i) % 64 == 0
      ensures WordsIn(state[..]) == Blocks(INITIAL, (message + data)[..|message| + i])
    {
      hide Compress, Blocks, WordsIn;
      ghost var all, n := message + data, |message|;
      i := 64 - j;
      Copy(j, data[..i]);
      FirstBlock(message, data, from, i);
      assert buffer[64..] == [];
      assert buffer[..] == message[from..] + data[..i];
      NextBlock(all, from);
      Transform(state, buffer[..]);
      assert from + 64 == n + i;
      while i + 63 < |data|
        invariant 64 - j <= i <= |data| && (n + i) % 64 == 0
        invariant WordsIn(state[..]) == Blocks(INITIAL, all[..n + i])
      {
        NextBlock(all, n + i);
        LaterBlock(message, data, i);
        Transform(state, data[i..i + 64]);
        i := i + 64;
      }
    }

    method Update(data: seq<octet>)
      requires Valid() && |data| <= MAX_UPDATE
      modifies this, state, buffer
      ensures Valid() && message == old(message) + data
    {
      hide Blocks, Counted, WordsIn;
      ghost var all := message + data;
      CountedOffset(|message|, low, high);
      var j := low / 8 % 64;
      Count(|data|);
      Absorb(j, data, Hashed());
      message := all;
    }

    /** Lines 140-150: hash the blocks the data completes, and keep the rest. */
    method Absorb(j: nat, data: seq<octet>, ghost from: nat)
      requires state.Length == 5 && buffer.Length == 64 && j < 64
      requires from % 64 == 0 && from + j == |message| && buffer[..j] == message[from..]
      requires WordsIn(state[..]) == Blocks(INITIAL, message[..from])
      modifies state, buffer
      ensures var all := message + data; Holds(all, |all| - |all| % 64)
    {
      hide Blocks, WordsIn;
      ghost var all := message + data;
      Spliced(message, data, from, 0);
      var i, place := 0, j;
      ghost var done := from;
      if j + |data| > 63 {
        i := HashBlocks(j, data, from);
        Spliced(message, data, from, i);
        done, place := |message| + i, 0;
      }
      Fill(place, data[i..], all, done);
      Remainder(|all|, done);
    }

    /** The last memcpy of an update: what was not hashed stays in the buffer. */
    method Fill(j: nat, rest: seq<octet>, ghost all: seq<octet>, ghost done: nat)
      requires state.Length == 5 && buffer.Length == 64 && done % 64 == 0
      requires j + |rest| < 64 && done + j + |rest| == |all|
      requires buffer[..j] == all[done..done + j] && rest == all[done + j..]
      requires WordsIn(state[..]) == Blocks(INITIAL, all[..done])
      modifies buffer
      ensures Holds(all, done)
    {
      hide Blocks, WordsIn;
      ghost var kept := buffer[..j];
      Copy(j, rest);
      assert buffer[..j + |rest|] == kept + rest;
    }

    /** The 0x80, then zeros until eight octets of a block are left: it stops within one block. */
    method PadZeros()
      requires Valid()
      modifies this, state, buffer
      ensures Valid()
      ensures message == old(message) + [0x80] + Zeros(ZeroCount(|old(message)|))
    {
      hide Holds, Counted, Hashed, ZeroCount;
      ghost var m, n := message, |message|;
      Update([0x80]);
      ghost var zeros := 0;
      NextZero(m, 0);
      CountedOffset(n + 1, low, high);
      while low / 8 % 64 != 56
        invariant Valid() && zeros <= ZeroCount(n) && message == m + [0x80] + Zeros(zeros)
        invariant low / 8 % 64 == (n + 1 + zeros) % 64
        decreases ZeroCount(n) - zeros
      {
        NextZero(m, zeros);
        Update([0]);
        zeros := zeros + 1;
        CountedOffset(n + 1 + zeros, low, high);
      }
      ZeroCountUnique(n, zeros);
    }

    /** SHA1Final: the padding and the length go through Update, and the context is wiped. */
    method Final() returns (digest: seq<octet>)
      requires Valid() && |message| < 0x2000_0000_0000_0000
      modifies this, state, buffer
      ensures digest == Digest(old(message))
    {
      hide Blocks, Counted, DigestOf, WordsIn, WordOctetsOf, LengthOctets, Zeros, ZeroCount;
      CountOctets(|message|, low, high);
      var finalCount := WordOctetsOf(high) + WordOctetsOf(low);
      PadZeros();
      Update(finalCount);
      assert message == Pad(old(message));
      assert Hashed() == |message| && message[..Hashed()] == message;
      digest := DigestOf(WordsIn(state[..]));
      Store(state, Words(0, 0, 0, 0, 0));
      Copy(0, Zeros(64));
      low, high := 0, 0;
    }
  }

  lemma {:induction false} NextZero(m: seq<octet>, zeros: nat)
    ensures m + [0x80] + Zeros(0) == m + [0x80]
    ensures m + [0x80] + Zeros(zeros) + [0] == m + [0x80] + Zeros(zeros + 1)
  {
    assert Zeros(zeros + 1) == Zeros(zeros) + [0];
  }

  lemma {:induction false} ZeroCountUnique(n: nat, z: nat)
    requires z <= ZeroCount(n) && (n + 1 + z) % 64 == 56
    ensures z == ZeroCount(n)
  {
    assert (n + 1 + ZeroCount(n) - (n + 1 + z)) % 64 == 0;
  }

  /** Below 2^61 octets the count is the length in bits, and its octets are the length's. */
  lemma {:induction false} CountOctets(n: nat, low: nat, high: nat)
    requires Counted(n, low, high) && n < 0x2000_0000_0000_0000
    ensures WordOctetsOf(high) + WordOctetsOf(low) == LengthOctets(8 * n)
  {
    hide WordOctetsOf;
    assert 8 * n / LIMIT < LIMIT;
  }

  lemma {:induction false} Spliced(m: seq<octet>, data: seq<octet>, from: nat, i: nat)
    requires from <= |m| && i <= |data|
    ensures (m + data)[..from] == m[..from] && (m + data)[from..|m|] == m[from..]
    ensures (m + data)[|m| + i..] == data[i..]
  {
  }

  lemma {:induction false} Remainder(n: nat, done: nat)
    requires done % 64 == 0 && done <= n < done + 64
    ensures n - n % 64 == done
  {
  }

  lemma {:induction false} ModAdds(x: nat, y: nat, z: nat)
    requires y == x % LIMIT
    ensures (y + z) % LIMIT == (x + z) % LIMIT
  {
    assert x == (x / LIMIT) * LIMIT + y;
  }

  /** The block that data completes. */
  lemma {:induction false} FirstBlock(m: seq<octet>, data: seq<octet>, from: nat, i: nat)
    requires from <= |m| && |m| - from + i == 64 && i <= |data|
    ensures (m + data)[..from] == m[..from] && (m + data)[from..from + 64] == m[from..] + data[..i]
  {
  }

  /** A block within the data. */
  lemma {:induction false} LaterBlock(m: seq<octet>, data: seq<octet>, i: nat)
    requires i + 64 <= |data|
    ensures (m + data)[|m| + i..|m| + i + 64] == data[i..i + 64]
  {
  }

  lemma {:induction false} NextBlock(all: seq<octet>, from: nat)
    requires from % 64 == 0 && from + 64 <= |all|
    ensures Blocks(INITIAL, all[..from + 64]) == Compress(Blocks(INITIAL, all[..from]), all[from..from + 64])
  {
    hide Compress, Blocks;
    assert all[..from + 64] == all[..from] + all[from..from + 64];
    BlocksAppend(INITIAL, all[..from], all[from..from + 64]);
    BlocksOne(Blocks(INITIAL, all[..from]), all[from..from + 64]);
  }

  lemma {:induction false} JoinedNone()
    ensures C.Joined<octet>([]) == []
  {
  }

  lemma {:induction false} JoinedNext(before: seq<octet>, pieces: seq<seq<octet>>, k: nat)
    requires k < |pieces|
    ensures before + C.Joined(pieces[k..]) == before + pieces[k] + C.Joined(pieces[k + 1..])
    ensures |pieces[k]| <= |C.Joined(pieces[k..])|
  {
    assert pieces[k..][1..] == pieces[k + 1..];
  }

  /** However a message is cut into updates, the digest is that of the whole message. */
  method DigestOfPieces(pieces: seq<seq<octet>>) returns (digest: seq<octet>)
    requires forall k :: 0 <= k < |pieces| ==> |pieces[k]| <= MAX_UPDATE
    requires |C.Joined(pieces)| < 0x2000_0000_0000_0000
    ensures digest == Digest(C.Joined(pieces))
  {
    hide Digest, C.Joined, Sha1Context.Valid;
    var context := new Sha1Context();
    var k := 0;
    assert pieces[0..] == pieces;
    assert context.message + C.Joined(pieces) == C.Joined(pieces);
    while k < |pieces|
      invariant 0 <= k <= |pieces| && context.Valid() && fresh(context) && fresh(context.state) && fresh(context.buffer)
      invariant context.message + C.Joined(pieces[k..]) == C.Joined(pieces)
    {
      JoinedNext(context.message, pieces, k);
      context.Update(pieces[k]);
      k := k + 1;
    }
    assert pieces[k..] == [];
    JoinedNone();
    assert context.message + [] == context.message;
    digest := context.Final();
  }
}
