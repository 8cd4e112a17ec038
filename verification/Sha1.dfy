/** SHA-1 as FIPS 180-4 defines it: sections 4.1.1, 4.2.1, 5.1.1, 5.3.1 and 6.1.2. */
module Sha1 {
  type octet = bv8
  type word = bv32

  datatype Words = Words(a: word, b: word, c: word, d: word, e: word)

  const INITIAL: Words := Words(0x67452301, 0xEFCDAB89, 0x98BADCFE, 0x10325476, 0xC3D2E1F0)

  function Rotl1(x: word): word { (x << 1) | (x >> 31) }
  function Rotl5(x: word): word { (x << 5) | (x >> 27) }
  function Rotl30(x: word): word { (x << 30) | (x >> 2) }

  function Ch(x: word, y: word, z: word): word { (x & y) ^ (!x & z) }
  function Parity(x: word, y: word, z: word): word { x ^ y ^ z }
  function Maj(x: word, y: word, z: word): word { (x & y) ^ (x & z) ^ (y & z) }

  function F(t: nat, x: word, y: word, z: word): word {
    if t < 20 then Ch(x, y, z) else if 40 <= t < 60 then Maj(x, y, z) else Parity(x, y, z)
  }

  function K(t: nat): word {
    if t < 20 then 0x5A827999 else if t < 40 then 0x6ED9EBA1 else if t < 60 then 0x8F1BBCDC else 0xCA62C1D6
  }

  function BigEndian(a: octet, b: octet, c: octet, d: octet): word {
    ((a as word) << 24) | ((b as word) << 16) | ((c as word) << 8) | (d as word)
  }

  /** The message schedule of a block, word by word. */
  function Schedule(block: seq<octet>, t: nat): word
    requires |block| == 64
  {
    if t < 16 then BigEndian(block[4 * t], block[4 * t + 1], block[4 * t + 2], block[4 * t + 3])
    else Rotl1(Schedule(block, t - 3) ^ Schedule(block, t - 8) ^ Schedule(block, t - 14) ^ Schedule(block, t - 16))
  }

  function Sum(rotated: word, f: word, e: word, k: word, w: word): word {
    rotated + f + e + k + w
  }

  function Round(s: Words, t: nat, w: word): Words {
    Words(Sum(Rotl5(s.a), F(t, s.b, s.c, s.d), s.e, K(t), w), s.a, Rotl30(s.b), s.c, s.d)
  }

  function Rounds(s: Words, block: seq<octet>, t: nat): Words
    requires |block| == 64
  {
    if t == 0 then s else Round(Rounds(s, block, t - 1), t - 1, Schedule(block, t - 1))
  }

  function Plus(s: Words, t: Words): Words {
    Words(s.a + t.a, s.b + t.b, s.c + t.c, s.d + t.d, s.e + t.e)
  }

  /** One block of the hash computation. */
  function Compress(s: Words, block: seq<octet>): Words
    requires |block| == 64
  {
    Plus(s, Rounds(s, block, 80))
  }

  function Blocks(s: Words, bytes: seq<octet>): Words
    requires |bytes| % 64 == 0
    decreases bytes
  {
    if bytes == [] then s else Blocks(Compress(s, bytes[..64]), bytes[64..])
  }

  // ---------- padding and the digest ----------

  /** Zero octets between the 0x80 and the length: the fewest that leave eight octets of a block. */
  function ZeroCount(n: nat): (z: nat)
    ensures z < 64 && (n + 1 + z) % 64 == 56
  {
    (119 - n % 64) % 64
  }

  function Zeros(n: nat): (r: seq<octet>)
    ensures |r| == n
  {
    seq(n, _ => 0)
  }

  function OctetOf(n: nat): octet {
    (n % 256) as octet
  }

  /** The eight octets of a 64-bit number, most significant first. */
  function LengthOctets(n: nat): (r: seq<octet>)
    ensures |r| == 8
  {
    WordOctetsOf(n / 0x1_0000_0000) + WordOctetsOf(n % 0x1_0000_0000)
  }

  function WordOctetsOf(n: nat): (r: seq<octet>)
    ensures |r| == 4
  {
    [OctetOf(n / 0x100_0000), OctetOf(n / 0x1_0000), OctetOf(n / 0x100), OctetOf(n)]
  }

  /** What section 5.1.1 adds to a message of n octets. */
  function Padding(n: nat): (r: seq<octet>)
    ensures (n + |r|) % 64 == 0
  {
    var z := ZeroCount(n);
    assert (n + 1 + z + 8) % 64 == 0;
    var r := [0x80] + Zeros(z) + LengthOctets(8 * n);
    assert |r| == 1 + z + 8;
    r
  }

  function Pad(message: seq<octet>): (r: seq<octet>)
    ensures |r| % 64 == 0
  {
    message + Padding(|message|)
  }

  function WordOctets(w: word): (r: seq<octet>)
    ensures |r| == 4
  {
    [((w >> 24) & 0xFF) as octet, ((w >> 16) & 0xFF) as octet, ((w >> 8) & 0xFF) as octet, (w & 0xFF) as octet]
  }

  function DigestOf(s: Words): (r: seq<octet>)
    ensures |r| == 20
  {
    WordOctets(s.a) + WordOctets(s.b) + WordOctets(s.c) + WordOctets(s.d) + WordOctets(s.e)
  }

  function Digest(message: seq<octet>): seq<octet> {
    DigestOf(Blocks(INITIAL, Pad(message)))
  }

  lemma {:induction false} BlocksAppend(s: Words, x: seq<octet>, y: seq<octet>)
    requires |x| % 64 == 0 && |y| % 64 == 0
    ensures Blocks(s, x + y) == Blocks(Blocks(s, x), y)
    decreases |x|
  {
    hide Compress;
    if x == [] {
      assert x + y == y;
    } else {
      assert (x + y)[..64] == x[..64] && (x + y)[64..] == x[64..] + y;
      BlocksAppend(Compress(s, x[..64]), x[64..], y);
    }
  }

  lemma {:induction false} BlocksOne(s: Words, block: seq<octet>)
    requires |block| == 64
    ensures Blocks(s, block) == Compress(s, block)
  {
    hide Compress;
    assert block[..64] == block && block[64..] == [];
  }
}
