/**
 The one-block example of FIPS 180-4 (the three octets "abc"), worked through with the words and working variables
 that NIST publishes for it: the constants of the model are those of the standard.
 */
module Sha1Example {
  import opened Sha1

  const ABC: seq<octet> := [0x61, 0x62, 0x63]

  // ---------- the block ----------

  lemma {:induction false} LengthIs24()
    ensures LengthOctets(24) == [0, 0, 0, 0, 0, 0, 0, 0x18]
  {
    hide OctetOf;
    TwoOctets();
    assert WordOctetsOf(0) == [0, 0, 0, 0] && WordOctetsOf(24) == [0, 0, 0, 0x18];
  }

  lemma {:induction false} TwoOctets()
    ensures OctetOf(0) == 0 && OctetOf(24) == 0x18
  {
  }

  lemma {:induction false} InParts(x: seq<octet>, z: seq<octet>, y: seq<octet>, i: nat)
    requires |x| == 3 && |z| == 52 && |y| == 8 && i < 64
    ensures (x + [0x80] + z + y)[i]
         == if i < 3 then x[i] else if i == 3 then 0x80 else if i < 56 then z[i - 4] else y[i - 56]
  {
  }

  lemma {:induction false} PaddedParts()
    ensures Pad(ABC) == ABC + [0x80] + Zeros(52) + LengthOctets(24)
  {
    hide LengthOctets, Zeros;
  }

  lemma {:induction false} BlockOctets(i: nat)
    requires i < 64
    ensures |Pad(ABC)| == 64
    ensures Pad(ABC)[i] == if i == 0 then 0x61 else if i == 1 then 0x62 else if i == 2 then 0x63
                           else if i == 3 then 0x80 else if i == 63 then 0x18 else 0
  {
    PaddedParts();
    InParts(ABC, Zeros(52), LengthOctets(24), i);
    LengthIs24();
    hide Pad, LengthOctets;
  }

  lemma {:induction false} BigEndians()
    ensures BigEndian(0x61, 0x62, 0x63, 0x80) == 0x61626380 && BigEndian(0, 0, 0, 0x18) == 0x18
    ensures BigEndian(0, 0, 0, 0) == 0
  {
  }

  /** The first sixteen words of the example's schedule. */
  predicate Example(block: seq<octet>) {
    && |block| == 64 && Schedule(block, 0) == 0x61626380 && Schedule(block, 15) == 0x18
    && Schedule(block, 1) == 0 && Schedule(block, 2) == 0 && Schedule(block, 3) == 0 && Schedule(block, 4) == 0
    && Schedule(block, 5) == 0 && Schedule(block, 6) == 0 && Schedule(block, 7) == 0 && Schedule(block, 8) == 0
    && Schedule(block, 9) == 0 && Schedule(block, 10) == 0 && Schedule(block, 11) == 0 && Schedule(block, 12) == 0
    && Schedule(block, 13) == 0 && Schedule(block, 14) == 0
  }

  lemma {:induction false} BlockIsExample()
    ensures Example(Pad(ABC))
  {
    BlockOctets(0);
    forall t | 0 <= t < 16
      ensures Schedule(Pad(ABC), t) == if t == 0 then 0x61626380 else if t == 15 then 0x18 else 0
    {
      BlockOctets(4 * t);
      BlockOctets(4 * t + 1);
      BlockOctets(4 * t + 2);
      BlockOctets(4 * t + 3);
      BigEndians();
      hide BigEndian, Pad;
    }
    hide Schedule, Pad;
  }

  // ---------- the words and the rounds ----------

  lemma {:induction false} Next(block: seq<octet>, t: nat)
    requires t >= 16 && |block| == 64
    ensures Schedule(block, t) == Rotl1(Schedule(block, t - 3) ^ Schedule(block, t - 8)
                                        ^ Schedule(block, t - 14) ^ Schedule(block, t - 16))
  {
  }

  lemma {:induction false} RoundAfter(block: seq<octet>, t: nat)
    requires |block| == 64
    ensures Rounds(INITIAL, block, t + 1) == Round(Rounds(INITIAL, block, t), t, Schedule(block, t))
  {
  }

  lemma {:induction false} Words16(block: seq<octet>)
    requires Example(block)
    ensures Schedule(block, 16) == 0xC2C4C700 && Schedule(block, 17) == 0x00000000
    ensures Schedule(block, 18) == 0x00000030 && Schedule(block, 19) == 0x85898E01
    ensures Schedule(block, 20) == 0x00000000 && Schedule(block, 21) == 0x00000060
    ensures Schedule(block, 22) == 0x0B131C03 && Schedule(block, 23) == 0x00000030
  {
    hide Schedule;
    Next(block, 16);
    Next(block, 17);
    Next(block, 18);
    Next(block, 19);
    Next(block, 20);
    Next(block, 21);
    Next(block, 22);
    Next(block, 23);
  }

  lemma {:induction false} Words24(block: seq<octet>)
    requires Example(block)
    ensures Schedule(block, 24) == 0x85898EC1 && Schedule(block, 25) == 0x16263806
    ensures Schedule(block, 26) == 0x00000000 && Schedule(block, 27) == 0x00000180
    ensures Schedule(block, 28) == 0x2C4C700C && Schedule(block, 29) == 0x000000F0
    ensures Schedule(block, 30) == 0x93AFB507 && Schedule(block, 31) == 0x5898E048
  {
    hide Schedule;
    Words16(block);
    Next(block, 24);
    Next(block, 25);
    Next(block, 26);
    Next(block, 27);
    Next(block, 28);
    Next(block, 29);
    Next(block, 30);
    Next(block, 31);
  }

  lemma {:induction false} Words32(block: seq<octet>)
    requires Example(block)
    ensures Schedule(block, 32) == 0x8E9A9202 && Schedule(block, 33) == 0x00000600
    ensures Schedule(block, 34) == 0xB131C0F0 && Schedule(block, 35) == 0x16263BC6
    ensures Schedule(block, 36) == 0x4EBED41E && Schedule(block, 37) == 0x626380A1
    ensures Schedule(block, 38) == 0x16263806 && Schedule(block, 39) == 0x000018C0
  {
    hide Schedule;
    Words16(block);
    Words24(block);
    Next(block, 32);
    Next(block, 33);
    Next(block, 34);
    Next(block, 35);
    Next(block, 36);
    Next(block, 37);
    Next(block, 38);
    Next(block, 39);
  }

  lemma {:induction false} Words40(block: seq<octet>)
    requires Example(block)
    ensures Schedule(block, 40) == 0xD2E138C4 && Schedule(block, 41) == 0x00000F00
    ensures Schedule(block, 42) == 0x3AFB5079 && Schedule(block, 43) == 0x898E04E5
    ensures Schedule(block, 44) == 0xE2BA3C2B && Schedule(block, 45) == 0x000060C0
    ensures Schedule(block, 46) == 0x053A37CD && Schedule(block, 47) == 0x74458547
  {
    hide Schedule;
    Words24(block);
    Words32(block);
    Next(block, 40);
    Next(block, 41);
    Next(block, 42);
    Next(block, 43);
    Next(block, 44);
    Next(block, 45);
    Next(block, 46);
    Next(block, 47);
  }

  lemma {:induction false} Words48(block: seq<octet>)
    requires Example(block)
    ensures Schedule(block, 48) == 0xDA9415ED && Schedule(block, 49) == 0x26380A16
    ensures Schedule(block, 50) == 0x626383A1 && Schedule(block, 51) == 0x4EBF54DE
    ensures Schedule(block, 52) == 0x3835B44B && Schedule(block, 53) == 0x0000F600
    ensures Schedule(block, 54) == 0x1E84C7A3 && Schedule(block, 55) == 0x98E04D98
  {
    hide Schedule;
    Words32(block);
    Words40(block);
    Next(block, 48);
    Next(block, 49);
    Next(block, 50);
    Next(block, 51);
    Next(block, 52);
    Next(block, 53);
    Next(block, 54);
    Next(block, 55);
  }

  lemma {:induction false} Words56(block: seq<octet>)
    requires Example(block)
    ensures Schedule(block, 56) == 0x651D16A0 && Schedule(block, 57) == 0x62658CA1
    ensures Schedule(block, 58) == 0x458544D6 && Schedule(block, 59) == 0x44584CB7
    ensures Schedule(block, 60) == 0x7BA06619 && Schedule(block, 61) == 0x6380AEA2
    ensures Schedule(block, 62) == 0x0AE55269 && Schedule(block, 63) == 0x627B49A1
  {
    hide Schedule;
    Words40(block);
    Words48(block);
    Next(block, 56);
    Next(block, 57);
    Next(block, 58);
    Next(block, 59);
    Next(block, 60);
    Next(block, 61);
    Next(block, 62);
    Next(block, 63);
  }

  lemma {:induction false} Words64(block: seq<octet>)
    requires Example(block)
    ensures Schedule(block, 64) == 0x7CD45C9D && Schedule(block, 65) == 0x000F0000
    ensures Schedule(block, 66) == 0xFB50753A && Schedule(block, 67) == 0xEC6765E8
    ensures Schedule(block, 68) == 0xBA3C2BE2 && Schedule(block, 69) == 0x0060C000
    ensures Schedule(block, 70) == 0x3A37CD05 && Schedule(block, 71) == 0x458546F4
  {
    hide Schedule;
    Words48(block);
    Words56(block);
    Next(block, 64);
    assert Schedule(block, 64) == 0x7CD45C9D;
    Next(block, 65);
    assert Schedule(block, 65) == 0x000F0000;
    Next(block, 66);
    assert Schedule(block, 66) == 0xFB50753A;
    Next(block, 67);
    assert Schedule(block, 67) == 0xEC6765E8;
    Next(block, 68);
    assert Schedule(block, 68) == 0xBA3C2BE2;
    Next(block, 69);
    assert Schedule(block, 69) == 0x0060C000;
    Next(block, 70);
    assert Schedule(block, 70) == 0x3A37CD05;
    Next(block, 71);
  }

  lemma {:induction false} Words72(block: seq<octet>)
    requires Example(block)
    ensures Schedule(block, 72) == 0xB8599DD6 && Schedule(block, 73) == 0x380A1A26
    ensures Schedule(block, 74) == 0x01E02203 && Schedule(block, 75) == 0xE7CC3456
    ensures Schedule(block, 76) == 0xE6E60B69 && Schedule(block, 77) == 0x00F60A00
    ensures Schedule(block, 78) == 0x5795EF4F && Schedule(block, 79) == 0x822E0879
  {
    hide Schedule;
    Words56(block);
    Words64(block);
    Next(block, 72);
    Next(block, 73);
    Next(block, 74);
    Next(block, 75);
    Next(block, 76);
    Next(block, 77);
    Next(block, 78);
    Next(block, 79);
  }

  lemma {:induction false} After8(block: seq<octet>)
    requires Example(block)
    ensures Rounds(INITIAL, block, 8) == Words(0x9E8C07D4, 0x993E30C1, 0x0FF1F290, 0xB3F52677, 0xF3763846)
  {
    hide Schedule, Rounds;
    NoRounds(block);
    RoundAfter(block, 0);
    assert Rounds(INITIAL, block, 1) == Words(0x0116FC33, 0x67452301, 0x7BF36AE2, 0x98BADCFE, 0x10325476);
    RoundAfter(block, 1);
    assert Rounds(INITIAL, block, 2) == Words(0x8990536D, 0x0116FC33, 0x59D148C0, 0x7BF36AE2, 0x98BADCFE);
    RoundAfter(block, 2);
    assert Rounds(INITIAL, block, 3) == Words(0xA1390F08, 0x8990536D, 0xC045BF0C, 0x59D148C0, 0x7BF36AE2);
    RoundAfter(block, 3);
    assert Rounds(INITIAL, block, 4) == Words(0xCDD8E11B, 0xA1390F08, 0x626414DB, 0xC045BF0C, 0x59D148C0);
    RoundAfter(block, 4);
    assert Rounds(INITIAL, block, 5) == Words(0xCFD499DE, 0xCDD8E11B, 0x284E43C2, 0x626414DB, 0xC045BF0C);
    RoundAfter(block, 5);
    assert Rounds(INITIAL, block, 6) == Words(0x3FC7CA40, 0xCFD499DE, 0xF3763846, 0x284E43C2, 0x626414DB);
    RoundAfter(block, 6);
    assert Rounds(INITIAL, block, 7) == Words(0x993E30C1, 0x3FC7CA40, 0xB3F52677, 0xF3763846, 0x284E43C2);
    RoundAfter(block, 7);
  }

  lemma {:induction false} After16(block: seq<octet>)
    requires Example(block)
    ensures Rounds(INITIAL, block, 16) == Words(0x20BDD62F, 0x196BEE77, 0x644A3DA5, 0x1181ED99, 0x18C623F9)
  {
    hide Schedule, Rounds;
    After8(block);
    RoundAfter(block, 8);
    assert Rounds(INITIAL, block, 9) == Words(0x4B6AE328, 0x9E8C07D4, 0x664F8C30, 0x0FF1F290, 0xB3F52677);
    RoundAfter(block, 9);
    assert Rounds(INITIAL, block, 10) == Words(0x8351F929, 0x4B6AE328, 0x27A301F5, 0x664F8C30, 0x0FF1F290);
    RoundAfter(block, 10);
    assert Rounds(INITIAL, block, 11) == Words(0xFBDA9E89, 0x8351F929, 0x12DAB8CA, 0x27A301F5, 0x664F8C30);
    RoundAfter(block, 11);
    assert Rounds(INITIAL, block, 12) == Words(0x63188FE4, 0xFBDA9E89, 0x60D47E4A, 0x12DAB8CA, 0x27A301F5);
    RoundAfter(block, 12);
    assert Rounds(INITIAL, block, 13) == Words(0x4607B664, 0x63188FE4, 0x7EF6A7A2, 0x60D47E4A, 0x12DAB8CA);
    RoundAfter(block, 13);
    assert Rounds(INITIAL, block, 14) == Words(0x9128F695, 0x4607B664, 0x18C623F9, 0x7EF6A7A2, 0x60D47E4A);
    RoundAfter(block, 14);
    assert Rounds(INITIAL, block, 15) == Words(0x196BEE77, 0x9128F695, 0x1181ED99, 0x18C623F9, 0x7EF6A7A2);
    RoundAfter(block, 15);
  }

  lemma {:induction false} After24(block: seq<octet>)
    requires Example(block)
    ensures Rounds(INITIAL, block, 24) == Words(0xD541F12D, 0x21283486, 0x0CE88EFF, 0x868DEC32, 0x7F67875F)
  {
    hide Schedule, Rounds;
    After16(block);
    Words16(block);
    RoundAfter(block, 16);
    assert Rounds(INITIAL, block, 17) == Words(0x4E925823, 0x20BDD62F, 0xC65AFB9D, 0x644A3DA5, 0x1181ED99);
    RoundAfter(block, 17);
    assert Rounds(INITIAL, block, 18) == Words(0x82AA6728, 0x4E925823, 0xC82F758B, 0xC65AFB9D, 0x644A3DA5);
    RoundAfter(block, 18);
    assert Rounds(INITIAL, block, 19) == Words(0xDC64901D, 0x82AA6728, 0xD3A49608, 0xC82F758B, 0xC65AFB9D);
    RoundAfter(block, 19);
    assert Rounds(INITIAL, block, 20) == Words(0xFD9E1D7D, 0xDC64901D, 0x20AA99CA, 0xD3A49608, 0xC82F758B);
    RoundAfter(block, 20);
    assert Rounds(INITIAL, block, 21) == Words(0x1A37B0CA, 0xFD9E1D7D, 0x77192407, 0x20AA99CA, 0xD3A49608);
    RoundAfter(block, 21);
    assert Rounds(INITIAL, block, 22) == Words(0x33A23BFC, 0x1A37B0CA, 0x7F67875F, 0x77192407, 0x20AA99CA);
    RoundAfter(block, 22);
    assert Rounds(INITIAL, block, 23) == Words(0x21283486, 0x33A23BFC, 0x868DEC32, 0x7F67875F, 0x77192407);
    RoundAfter(block, 23);
  }

  lemma {:induction false} After32(block: seq<octet>)
    requires Example(block)
    ensures Rounds(INITIAL, block, 32) == Words(0x3B845D33, 0x1267B407, 0x717EEBD7, 0xA0DC2D4B, 0xD2AA1365)
  {
    hide Schedule, Rounds;
    After24(block);
    Words24(block);
    RoundAfter(block, 24);
    assert Rounds(INITIAL, block, 25) == Words(0xC7567DC6, 0xD541F12D, 0x884A0D21, 0x0CE88EFF, 0x868DEC32);
    RoundAfter(block, 25);
    assert Rounds(INITIAL, block, 26) == Words(0x48413BA4, 0xC7567DC6, 0x75507C4B, 0x884A0D21, 0x0CE88EFF);
    RoundAfter(block, 26);
    assert Rounds(INITIAL, block, 27) == Words(0xBE35FBD5, 0x48413BA4, 0xB1D59F71, 0x75507C4B, 0x884A0D21);
    RoundAfter(block, 27);
    assert Rounds(INITIAL, block, 28) == Words(0x4AA84D97, 0xBE35FBD5, 0x12104EE9, 0xB1D59F71, 0x75507C4B);
    RoundAfter(block, 28);
    assert Rounds(INITIAL, block, 29) == Words(0x8370B52E, 0x4AA84D97, 0x6F8D7EF5, 0x12104EE9, 0xB1D59F71);
    RoundAfter(block, 29);
    assert Rounds(INITIAL, block, 30) == Words(0xC5FBAF5D, 0x8370B52E, 0xD2AA1365, 0x6F8D7EF5, 0x12104EE9);
    RoundAfter(block, 30);
    assert Rounds(INITIAL, block, 31) == Words(0x1267B407, 0xC5FBAF5D, 0xA0DC2D4B, 0xD2AA1365, 0x6F8D7EF5);
    RoundAfter(block, 31);
  }

  lemma {:induction false} After40(block: seq<octet>)
    requires Example(block)
    ensures Rounds(INITIAL, block, 40) == Words(0x32DE1CBA, 0x4C986405, 0xF718E5CF, 0x03D447F6, 0xF72EEC32)
  {
    hide Schedule, Rounds;
    After32(block);
    Words32(block);
    RoundAfter(block, 32);
    assert Rounds(INITIAL, block, 33) == Words(0x046FAA0A, 0x3B845D33, 0xC499ED01, 0x717EEBD7, 0xA0DC2D4B);
    RoundAfter(block, 33);
    assert Rounds(INITIAL, block, 34) == Words(0x2C0EBC11, 0x046FAA0A, 0xCEE1174C, 0xC499ED01, 0x717EEBD7);
    RoundAfter(block, 34);
    assert Rounds(INITIAL, block, 35) == Words(0x21796AD4, 0x2C0EBC11, 0x811BEA82, 0xCEE1174C, 0xC499ED01);
    RoundAfter(block, 35);
    assert Rounds(INITIAL, block, 36) == Words(0xDCBBB0CB, 0x21796AD4, 0x4B03AF04, 0x811BEA82, 0xCEE1174C);
    RoundAfter(block, 36);
    assert Rounds(INITIAL, block, 37) == Words(0x0F511FD8, 0xDCBBB0CB, 0x085E5AB5, 0x4B03AF04, 0x811BEA82);
    RoundAfter(block, 37);
    assert Rounds(INITIAL, block, 38) == Words(0xDC63973F, 0x0F511FD8, 0xF72EEC32, 0x085E5AB5, 0x4B03AF04);
    RoundAfter(block, 38);
    assert Rounds(INITIAL, block, 39) == Words(0x4C986405, 0xDC63973F, 0x03D447F6, 0xF72EEC32, 0x085E5AB5);
    RoundAfter(block, 39);
  }

  lemma {:induction false} After48(block: seq<octet>)
    requires Example(block)
    ensures Rounds(INITIAL, block, 48) == Words(0xBEAD02CA, 0xA01B846C, 0x8714787C, 0x503CA382, 0xFB86C6AB)
  {
    hide Schedule, Rounds;
    After40(block);
    Words40(block);
    RoundAfter(block, 40);
    assert Rounds(INITIAL, block, 41) == Words(0xFC87DEDF, 0x32DE1CBA, 0x53261901, 0xF718E5CF, 0x03D447F6);
    RoundAfter(block, 41);
    assert Rounds(INITIAL, block, 42) == Words(0x970A0D5C, 0xFC87DEDF, 0x8CB7872E, 0x53261901, 0xF718E5CF);
    RoundAfter(block, 42);
    assert Rounds(INITIAL, block, 43) == Words(0x7F193DC5, 0x970A0D5C, 0xFF21F7B7, 0x8CB7872E, 0x53261901);
    RoundAfter(block, 43);
    assert Rounds(INITIAL, block, 44) == Words(0xEE1B1AAF, 0x7F193DC5, 0x25C28357, 0xFF21F7B7, 0x8CB7872E);
    RoundAfter(block, 44);
    assert Rounds(INITIAL, block, 45) == Words(0x40F28E09, 0xEE1B1AAF, 0x5FC64F71, 0x25C28357, 0xFF21F7B7);
    RoundAfter(block, 45);
    assert Rounds(INITIAL, block, 46) == Words(0x1C51E1F2, 0x40F28E09, 0xFB86C6AB, 0x5FC64F71, 0x25C28357);
    RoundAfter(block, 46);
    assert Rounds(INITIAL, block, 47) == Words(0xA01B846C, 0x1C51E1F2, 0x503CA382, 0xFB86C6AB, 0x5FC64F71);
    RoundAfter(block, 47);
  }

  lemma {:induction false} After56(block: seq<octet>)
    requires Example(block)
    ensures Rounds(INITIAL, block, 56) == Words(0x5E6456AF, 0x7B71F76D, 0x09FA7C76, 0x792410DB, 0x8E11EB59)
  {
    hide Schedule, Rounds;
    After48(block);
    Words48(block);
    RoundAfter(block, 48);
    assert Rounds(INITIAL, block, 49) == Words(0xBAF39337, 0xBEAD02CA, 0x2806E11B, 0x8714787C, 0x503CA382);
    RoundAfter(block, 49);
    assert Rounds(INITIAL, block, 50) == Words(0x120731C5, 0xBAF39337, 0xAFAB40B2, 0x2806E11B, 0x8714787C);
    RoundAfter(block, 50);
    assert Rounds(INITIAL, block, 51) == Words(0x641DB2CE, 0x120731C5, 0xEEBCE4CD, 0xAFAB40B2, 0x2806E11B);
    RoundAfter(block, 51);
    assert Rounds(INITIAL, block, 52) == Words(0x3847AD66, 0x641DB2CE, 0x4481CC71, 0xEEBCE4CD, 0xAFAB40B2);
    RoundAfter(block, 52);
    assert Rounds(INITIAL, block, 53) == Words(0xE490436D, 0x3847AD66, 0x99076CB3, 0x4481CC71, 0xEEBCE4CD);
    RoundAfter(block, 53);
    assert Rounds(INITIAL, block, 54) == Words(0x27E9F1D8, 0xE490436D, 0x8E11EB59, 0x99076CB3, 0x4481CC71);
    RoundAfter(block, 54);
    assert Rounds(INITIAL, block, 55) == Words(0x7B71F76D, 0x27E9F1D8, 0x792410DB, 0x8E11EB59, 0x99076CB3);
    RoundAfter(block, 55);
  }

  lemma {:induction false} After64(block: seq<octet>)
    requires Example(block)
    ensures Rounds(INITIAL, block, 64) == Words(0x6B61C9E1, 0xB66C020B, 0x9523272C, 0xF5D5B051, 0x8FD4B796)
  {
    hide Schedule, Rounds;
    After56(block);
    Words56(block);
    RoundAfter(block, 56);
    assert Rounds(INITIAL, block, 57) == Words(0xC846093F, 0x5E6456AF, 0x5EDC7DDB, 0x09FA7C76, 0x792410DB);
    RoundAfter(block, 57);
    assert Rounds(INITIAL, block, 58) == Words(0xD262FF50, 0xC846093F, 0xD79915AB, 0x5EDC7DDB, 0x09FA7C76);
    RoundAfter(block, 58);
    assert Rounds(INITIAL, block, 59) == Words(0x09D785FD, 0xD262FF50, 0xF211824F, 0xD79915AB, 0x5EDC7DDB);
    RoundAfter(block, 59);
    assert Rounds(INITIAL, block, 60) == Words(0x3F52DE5A, 0x09D785FD, 0x3498BFD4, 0xF211824F, 0xD79915AB);
    RoundAfter(block, 60);
    assert Rounds(INITIAL, block, 61) == Words(0xD756C147, 0x3F52DE5A, 0x4275E17F, 0x3498BFD4, 0xF211824F);
    RoundAfter(block, 61);
    assert Rounds(INITIAL, block, 62) == Words(0x548C9CB2, 0xD756C147, 0x8FD4B796, 0x4275E17F, 0x3498BFD4);
    RoundAfter(block, 62);
    assert Rounds(INITIAL, block, 63) == Words(0xB66C020B, 0x548C9CB2, 0xF5D5B051, 0x8FD4B796, 0x4275E17F);
    RoundAfter(block, 63);
  }

  lemma {:induction false} After72(block: seq<octet>)
    requires Example(block)
    ensures Rounds(INITIAL, block, 72) == Words(0x39859DE7, 0xC199F8C7, 0x8FC96230, 0x125C24F0, 0xDE37534A)
  {
    hide Schedule, Rounds;
    After64(block);
    Words64(block);
    RoundAfter(block, 64);
    assert Rounds(INITIAL, block, 65) == Words(0x19DFA7AC, 0x6B61C9E1, 0xED9B0082, 0x9523272C, 0xF5D5B051);
    RoundAfter(block, 65);
    assert Rounds(INITIAL, block, 66) == Words(0x101655F9, 0x19DFA7AC, 0x5AD87278, 0xED9B0082, 0x9523272C);
    RoundAfter(block, 66);
    assert Rounds(INITIAL, block, 67) == Words(0x0C3DF2B4, 0x101655F9, 0x0677E9EB, 0x5AD87278, 0xED9B0082);
    RoundAfter(block, 67);
    assert Rounds(INITIAL, block, 68) == Words(0x78DD4D2B, 0x0C3DF2B4, 0x4405957E, 0x0677E9EB, 0x5AD87278);
    RoundAfter(block, 68);
    assert Rounds(INITIAL, block, 69) == Words(0x497093C0, 0x78DD4D2B, 0x030F7CAD, 0x4405957E, 0x0677E9EB);
    RoundAfter(block, 69);
    assert Rounds(INITIAL, block, 70) == Words(0x3F2588C2, 0x497093C0, 0xDE37534A, 0x030F7CAD, 0x4405957E);
    RoundAfter(block, 70);
    assert Rounds(INITIAL, block, 71) == Words(0xC199F8C7, 0x3F2588C2, 0x125C24F0, 0xDE37534A, 0x030F7CAD);
    RoundAfter(block, 71);
  }

  lemma {:induction false} After80(block: seq<octet>)
    requires Example(block)
    ensures Rounds(INITIAL, block, 80) == Words(0x42541B35, 0x5738D5E1, 0x21834873, 0x681E6DF6, 0xD8FDF6AD)
  {
    hide Schedule, Rounds;
    After72(block);
    Words72(block);
    RoundAfter(block, 72);
    assert Rounds(INITIAL, block, 73) == Words(0xEDB42DE4, 0x39859DE7, 0xF0667E31, 0x8FC96230, 0x125C24F0);
    RoundAfter(block, 73);
    assert Rounds(INITIAL, block, 74) == Words(0x11793F6F, 0xEDB42DE4, 0xCE616779, 0xF0667E31, 0x8FC96230);
    RoundAfter(block, 74);
    assert Rounds(INITIAL, block, 75) == Words(0x5EE76897, 0x11793F6F, 0x3B6D0B79, 0xCE616779, 0xF0667E31);
    RoundAfter(block, 75);
    assert Rounds(INITIAL, block, 76) == Words(0x63F7DAB7, 0x5EE76897, 0xC45E4FDB, 0x3B6D0B79, 0xCE616779);
    RoundAfter(block, 76);
    assert Rounds(INITIAL, block, 77) == Words(0xA079B7D9, 0x63F7DAB7, 0xD7B9DA25, 0xC45E4FDB, 0x3B6D0B79);
    RoundAfter(block, 77);
    assert Rounds(INITIAL, block, 78) == Words(0x860D21CC, 0xA079B7D9, 0xD8FDF6AD, 0xD7B9DA25, 0xC45E4FDB);
    RoundAfter(block, 78);
    assert Rounds(INITIAL, block, 79) == Words(0x5738D5E1, 0x860D21CC, 0x681E6DF6, 0xD8FDF6AD, 0xD7B9DA25);
    RoundAfter(block, 79);
  }

  lemma {:induction false} NoRounds(block: seq<octet>)
    requires |block| == 64
    ensures Rounds(INITIAL, block, 0) == INITIAL
  {
  }

  /** The digest of "abc". */
  lemma {:induction false} DigestOfAbc(message: seq<octet>)
    requires |message| == 3 && message[0] == 0x61 && message[1] == 0x62 && message[2] == 0x63
    ensures Digest(message)
         == [0xa9, 0x99, 0x3e, 0x36, 0x47, 0x06, 0x81, 0x6a, 0xba, 0x3e,
             0x25, 0x71, 0x78, 0x50, 0xc2, 0x6c, 0x9c, 0xd0, 0xd8, 0x9d]
  {
    hide Rounds, Pad, Example;
    assert message == ABC;
    BlockIsExample();
    BlockSize();
    After80(Pad(ABC));
    BlocksOne(INITIAL, Pad(ABC));
  }

  lemma {:induction false} BlockSize()
    ensures |Pad(ABC)| == 64
  {
    BlockIsExample();
  }
}
