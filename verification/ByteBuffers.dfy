/** Writing a run of octets into a buffer. */
module ByteBuffers {
  import opened Common

  /** `s` with `bytes` written at `at`. */
  function Overwrite(s: seq<byte>, at: nat, bytes: seq<byte>): (r: seq<byte>)
    requires at + |bytes| <= |s|
    ensures |r| == |s|
  {
    s[..at] + bytes + s[at + |bytes|..]
  }

  lemma {:induction false} OverwriteTwice(s: seq<byte>, at: nat, x: seq<byte>, y: seq<byte>)
    requires at + |x| + |y| <= |s|
    ensures Overwrite(Overwrite(s, at, x), at + |x|, y) == Overwrite(s, at, x + y)
  {
  }

  lemma {:induction false} OverwriteNone(s: seq<byte>, at: nat)
    requires at <= |s|
    ensures Overwrite(s, at, []) == s
  {
  }

  lemma {:induction false} OverwriteFront(s: seq<byte>, bytes: seq<byte>)
    requires |bytes| <= |s|
    ensures Overwrite(s, 0, bytes)[0..|bytes|] == bytes
  {
  }

  lemma {:induction false} OverwritePair(s: seq<byte>, at: nat, first: byte, second: byte)
    requires at + 2 <= |s|
    ensures s[at := first][at + 1 := second] == Overwrite(s, at, [first, second])
  {
  }
}
